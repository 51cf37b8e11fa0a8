/** The behaviour engine: transitions.py, states.py and state_machines.py, which refer to
    each other and so share one module.

    A `StateMachine` holds one live `State`; a `State` owns an ordered list of activities
    and an ordered list of `Transition`s, each a decision with a true and a false target
    (either may be absent). The Python subclasses of `State` become one class with a
    constant `kind`. Every state the machine can reach is in the ghost set `states`, and
    the ghost `trace` records the exit, assignment and entry of every swap in order. */
module Engine {
  import opened Vectors
  import opened Sprites
  import opened Decisions
  import opened Activities

  /** The classes of states.py (and `WaitForPull`, whose class is not shown). */
  datatype StateKind =
    | Plain            // `State()`
    | Idle             // IdleState
    | SeekAndFlee      // SeekAndFleeState
    | NavigateToPoint  // NavigateToPointState(target)
    | FleeFromPlayer   // FleeFromPlayer(target)
    | PointAndShoot
    | Heal
    | WaitForPull      // WaitForPull(player_sprite)

  /** The kinds constructed with a sprite of their own: the point to go to, or the player. */
  predicate HasTarget(k: StateKind) {
    k == NavigateToPoint || k == FleeFromPlayer || k == WaitForPull
  }

  /** The kinds whose `enter` reads the attributes only a FighterStateMachine has
      (`target`, `rocks`, `flee_targets`), or builds states that do. */
  predicate NeedsFighter(k: StateKind) {
    !(k == Plain || k == Idle || k == WaitForPull)
  }

  /** IdleState and WaitForPull never own activities or transitions. */
  predicate KeepsNoLists(k: StateKind) {
    k == Idle || k == WaitForPull
  }

  /** `str(state)`: the labels states.py defines; the other kinds keep Python's default. */
  function Label(k: StateKind): (r: Option<string>)
    ensures r.Some? <==> NeedsFighter(k)
  {
    match k
    case SeekAndFlee => Some("Seeking Player")
    case NavigateToPoint => Some("Run away!!")
    case FleeFromPlayer => Some("Fleeing!!")
    case PointAndShoot => Some("Firing!")
    case Heal => Some("healing")
    case _ => None
  }

  /** What a machine can be: the base StateMachine, a FighterStateMachine or a
      BeeStateMachine, with the attributes each one's constructor stores. */
  datatype Role =
    | Base
    | Fighter(target: Sprite, bulletList: SpriteList, physicsEngine: PhysicsEngine, rocks: SpriteList)
    | Bee(target: Sprite, physicsEngine: PhysicsEngine)

  /** One step of a swap, as the trace records it. */
  datatype Event = Exited(s: State) | Assigned(s: State) | Entered(s: State)

  datatype Transition = Transition(decision: Decision, trueState: State?, falseState: State?)
  {
    /** The state `execute` swaps to when the decision is `fired`, or null for none: a
        true decision without a true target falls through to the false target. */
    function Choice(fired: bool): State? {
      if fired && trueState != null then trueState else falseState
    }

    predicate PointsInto(states: set<State>) {
      (trueState != null ==> trueState in states) && (falseState != null ==> falseState in states)
    }

    /** `Transition.execute`: evaluates the decision once; on a swap, exits the current
        state, assigns the target and enters it, in that order. */
    method Execute(machine: StateMachine, env: Env) returns (ghost fired: bool)
      requires machine.Valid() && PointsInto(machine.states)
      modifies machine`state, machine`trace, machine`states, machine.sprite, trueState, falseState
      ensures machine.Valid() && old(machine.states) <= machine.states
      ensures forall s | s in machine.states && s !in old(machine.states) :: fresh(s)
      ensures fired == old(Decide(decision, machine.sprite, machine.sprite.View(), env.oracle))
      ensures machine.state == Next(old(machine.state), this, fired)
      ensures machine.trace == old(machine.trace) + SwapOf(old(machine.state), this, fired)
      ensures Choice(fired) == null ==> machine.sprite.View() == old(machine.sprite.View())
      ensures Choice(fired) != null ==>
        machine.sprite.View() == old(Choice(fired).EnterEffect(machine.state.ExitEffect(machine.sprite.View(), env), env))
      ensures Choice(fired) != null ==>
        && Choice(fired).activities == old(Choice(fired).activities) + Choice(fired).EntryList(machine.role, machine.fleeTargets)
        && Choice(fired).Extends(old(Choice(fired).transitions),
                                 old(Choice(fired).EntryEdgeList(machine.role, machine.state.ExitEffect(machine.sprite.View(), env))))
      ensures forall s | s in old(machine.states) && s != Choice(fired) ::
        s.activities == old(s.activities) && s.transitions == old(s.transitions)
    {
      var b := Decide(decision, machine.sprite, machine.sprite.View(), env.oracle);
      fired := b;
      if b && trueState != null {
        Swap(machine, trueState, env);
      } else if falseState != null {
        Swap(machine, falseState, env);
      }
    }

    /** `Transition.enter`: does nothing. */
    method Enter(machine: StateMachine)
      ensures unchanged(machine, machine.sprite, machine.states)
    {
    }

    /** `Transition.exit`: does nothing. */
    method Exit(machine: StateMachine)
      ensures unchanged(machine, machine.sprite, machine.states)
    {
    }
  }

  /** The three statements of a swap: `exit`, assignment, `enter`. */
  method Swap(machine: StateMachine, c: State, env: Env)
    requires machine.Valid() && c in machine.states
    modifies machine`state, machine`trace, machine`states, machine.sprite, c`activities, c`transitions
    ensures machine.Valid() && old(machine.states) <= machine.states
      ensures forall s | s in machine.states && s !in old(machine.states) :: fresh(s)
    ensures machine.state == c
    ensures machine.trace == old(machine.trace) + [Exited(old(machine.state)), Assigned(c), Entered(c)]
    ensures machine.sprite.View() == old(c.EnterEffect(machine.state.ExitEffect(machine.sprite.View(), env), env))
    ensures c.activities == old(c.activities) + c.EntryList(machine.role, machine.fleeTargets)
    ensures c.Extends(old(c.transitions), old(c.EntryEdgeList(machine.role, machine.state.ExitEffect(machine.sprite.View(), env))))
  {
    assert c.Fits(machine.role);
    ghost var v1 := machine.state.ExitEffect(machine.sprite.View(), env);
    machine.state.Exit(machine, env);
    machine.state := c;
    machine.trace := machine.trace + [Assigned(c)];
    c.Enter(machine, env);
  }

  /** A transition `enter` appends: its decision and the kind of its fresh true target
      (the false target is always None). `at` is the target's point for the kinds that
      have one, and is ignored otherwise. */
  datatype Edge = Edge(decision: Decision, next: StateKind, at: Vec)

  /** One Flee activity, with the default range, per flee target, in order. */
  function FleeAll(targets: seq<Sprite>): seq<Activity>
    decreases |targets|
  {
    if |targets| == 0 then [] else FleeAll(targets[..|targets| - 1]) + [FleeTarget(targets[|targets| - 1])]
  }

  /** A state of kind `k` with point or player `target` can be built. */
  predicate Buildable(k: StateKind, target: Sprite?) {
    HasTarget(k) <==> target != null
  }

  /** The activities `enter` of a state of kind `k` with `target` appends, for a machine
      of the given role whose flee targets are `fleeTargets`. */
  function EntryActivities(k: StateKind, target: Sprite?, role: Role, fleeTargets: seq<Sprite>): seq<Activity>
    requires Buildable(k, target) && (NeedsFighter(k) ==> role.Fighter?)
  {
    match k
    case SeekAndFlee =>
      [SeekTarget(role.target), PointInDirectionOfTravel, AvoidObstacles(role.rocks)] + FleeAll(fleeTargets)
    case NavigateToPoint => [SeekTarget(target), PointInDirectionOfTravel, AvoidObstacles(role.rocks)]
    case FleeFromPlayer => [SeekTarget(target), PointInDirectionOfTravel, AvoidObstacles(role.rocks)]
    case PointAndShoot => [Fire, PointTowardsTarget(role.target)]
    case Heal => [HealActivity]
    case _ => []
  }

  /** The transitions `enter` of a state of kind `k` with `target` appends, given the
      agent's attributes `v` at entry. The range 800 stands for
      `WithinRangeDecision(target, outer_limit=800)`, a keyword the constructor does not
      accept. */
  function EntryEdges(k: StateKind, target: Sprite?, role: Role, v: Attrs): seq<Edge>
    requires Buildable(k, target) && (NeedsFighter(k) ==> role.Fighter?)
  {
    match k
    case SeekAndFlee =>
      [ Edge(LowHealth(10), FleeFromPlayer, Vec(v.pos.x + 3000.0, v.pos.y)),
        Edge(WithinRange(role.target, 800), PointAndShoot, Zero) ]
    case NavigateToPoint => [Edge(WithinRange(target, 400), SeekAndFlee, Zero)]
    case FleeFromPlayer => [Edge(WithinRange(target, 400), Heal, Zero)]
    case PointAndShoot =>
      [ Edge(TimeElapsed(1.8), PointAndShoot, Zero),
        Edge(LowHealth(10), FleeFromPlayer, Vec(v.pos.x + 2000.0, v.pos.y)),
        Edge(TakenDamage(v.health), NavigateToPoint, Vec(v.pos.x + 1000.0, v.pos.y)) ]
    case Heal =>
      [ Edge(TimeElapsed(1.2), Heal, Zero),
        Edge(TakenDamage(v.health), NavigateToPoint, Vec(v.pos.x + 1000.0, v.pos.y)),
        Edge(FullHealth, SeekAndFlee, Zero) ]
    case _ => []
  }

  /** `for activity in acts: activity.execute(sprite)`. */
  method ExecuteAll(acts: seq<Activity>, self: Sprite, env: Env)
    modifies self
    ensures self.View() == old(RunAll(acts, self, self.View(), env))
  {
    ghost var v := self.View();
    for i := 0 to |acts|
      invariant self.View() == RunAll(acts[..i], self, v, env)
    {
      label L:
      acts[i].Execute(self, env);
      // The targets are other sprites, so they are where they were.
      assert forall o | o in Targets(acts[..i]) - {self} :: o.pos == old@L(o.pos);
      assert acts[..i + 1][..i] == acts[..i];
    }
    assert acts[..|acts|] == acts;
    assert forall o | o in Targets(acts) - {self} :: o.pos == old(o.pos);
  }

  /** `for transition in ts: transition.enter(machine)`: each call does nothing. */
  method EnterEach(ts: seq<Transition>, machine: StateMachine) {
    for i := 0 to |ts| {
      ts[i].Enter(machine);
    }
  }

  /** `for transition in ts: transition.exit(machine)`: each call does nothing. */
  method ExitEach(ts: seq<Transition>, machine: StateMachine) {
    for i := 0 to |ts| {
      ts[i].Exit(machine);
    }
  }

  /** `for activity in acts: activity.enter(sprite)` (or `exit`). */
  method HookEach(h: Hook, acts: seq<Activity>, self: Sprite, env: Env)
    modifies self
    ensures self.View() == HookAll(h, acts, old(self.View()), env)
  {
    for i := 0 to |acts|
      invariant self.View() == HookAll(h, acts[..i], old(self.View()), env)
    {
      acts[i].RunHook(h, self, env);
      assert acts[..i + 1][..i] == acts[..i];
    }
    assert acts[..|acts|] == acts;
  }

  /** The agent's attributes after `enter` of a state of kind `k` holding the activities
      `acts`: IdleState stops the body; WaitForPull acts as given; a plain State calls
      `enter` on its activities; the others only build lists. */
  function EnterOf(k: StateKind, acts: seq<Activity>, v: Attrs, env: Env): Attrs {
    match k
    case Idle => v.(vel := Zero)
    case WaitForPull => env.pull(OnEnter, v)
    case Plain => HookAll(OnEnter, acts, v, env)
    case _ => v
  }

  /** The agent's attributes after `exit` of a state of kind `k` holding the activities
      `acts`: every `State` calls `exit` on its activities; IdleState's `exit` is BaseState's
      no-op and WaitForPull acts as given. */
  function ExitOf(k: StateKind, acts: seq<Activity>, v: Attrs, env: Env): Attrs {
    match k
    case Idle => v
    case WaitForPull => env.pull(OnExit, v)
    case _ => HookAll(OnExit, acts, v, env)
  }

  class State {
    const kind: StateKind
    /** The point sprite of NavigateToPoint and FleeFromPlayer; the player of WaitForPull. */
    const target: Sprite?
    /** Where NavigateToPoint and FleeFromPlayer put their point sprite when built. */
    ghost const point: Vec
    var activities: seq<Activity>
    var transitions: seq<Transition>

    predicate WellFormed() {
      Buildable(kind, target)
    }

    /** `State()`, `IdleState()`, `SeekAndFleeState()`, `PointAndShoot()` and `Heal()`:
        both lists start empty. */
    constructor (k: StateKind)
      requires !HasTarget(k)
      ensures kind == k && target == null && activities == [] && transitions == []
    {
      kind, target, point := k, null, Zero;
      activities, transitions := [], [];
    }

    /** `NavigateToPointState((x, y))` and `FleeFromPlayer((x, y))`: a new sprite at the point. */
    constructor At(k: StateKind, x: real, y: real)
      requires k == NavigateToPoint || k == FleeFromPlayer
      ensures kind == k && target != null && fresh(target) && target.View() == Attrs(Vec(x, y), Zero, 0.0, 0.0, 0, 0, 0.0, 0.0, [], false)
      ensures point == Vec(x, y) && activities == [] && transitions == []
    {
      kind, point := k, Vec(x, y);
      target := new Sprite.At(x, y);
      activities, transitions := [], [];
    }

    /** `WaitForPull(player_sprite)`. */
    constructor Waiting(player: Sprite)
      ensures kind == WaitForPull && target == player && activities == [] && transitions == []
    {
      kind, target, point := WaitForPull, player, Zero;
      activities, transitions := [], [];
    }

    /** This state can live in a machine of the given role. */
    ghost predicate Fits(role: Role)
      reads this
    {
      && WellFormed()
      && (NeedsFighter(kind) ==> role.Fighter?)
      && (KeepsNoLists(kind) ==> activities == [] && transitions == [])
    }

    /** Every transition points into `states`, and none points back at this state. */
    ghost predicate ClosedIn(states: set<State>)
      reads this`transitions
    {
      forall t | t in transitions :: t.PointsInto(states) && t.trueState != this && t.falseState != this
    }

    /** The agent's attributes after `enter`, on the activities this state holds now. */
    function EnterEffect(v: Attrs, env: Env): Attrs
      reads this
    {
      EnterOf(kind, activities, v, env)
    }

    /** The agent's attributes after `exit`, on the activities this state holds now. */
    function ExitEffect(v: Attrs, env: Env): Attrs
      reads this
    {
      ExitOf(kind, activities, v, env)
    }

    /** The activities each `enter` of this state appends in a machine of `role` whose flee
        targets are `fleeTargets` (none, for a state that cannot live in such a machine). */
    function EntryList(role: Role, fleeTargets: seq<Sprite>): seq<Activity> {
      if Buildable(kind, target) && (NeedsFighter(kind) ==> role.Fighter?) then EntryActivities(kind, target, role, fleeTargets) else []
    }

    /** The edges `enter` of this state realises when the agent's attributes at entry are `v`. */
    function EntryEdgeList(role: Role, v: Attrs): seq<Edge> {
      if Buildable(kind, target) && (NeedsFighter(kind) ==> role.Fighter?) then EntryEdges(kind, target, role, v) else []
    }

    /** The agent's attributes after the activity part of `execute`. */
    function ActivityPhase(self: Sprite, v: Attrs, env: Env): Attrs
      reads this, Targets(activities) - {self}
    {
      match kind
      case Idle => v
      case WaitForPull => env.pull(OnExecute, v)
      case _ => RunAll(activities, self, v, env)
    }

    /** `execute`: every activity in list order, then every transition of this state's own
        list in order, even after one of them has replaced the machine's state;
        PointAndShoot and Heal then remove their one-shot activities. */
    method Execute(machine: StateMachine, env: Env) returns (ghost outcomes: seq<bool>, ghost views: seq<Attrs>)
      requires machine.Valid() && this in machine.states
      modifies machine`state, machine`trace, machine`states, machine.sprite, machine.states
      ensures machine.Valid() && old(machine.states) <= machine.states
      ensures transitions == old(transitions)
      ensures Replayed(transitions, outcomes, views, machine.sprite, env.oracle)
      ensures views[0] == old(ActivityPhase(machine.sprite, machine.sprite.View(), env))
      ensures machine.state == Resolve(old(machine.state), transitions, outcomes)
      ensures machine.trace == old(machine.trace) + SwapEvents(old(machine.state), transitions, outcomes)
      ensures machine.sprite.View() == views[|transitions|]
      ensures activities == if kind == PointAndShoot || kind == Heal then Sweep(old(activities), 0, kind) else old(activities)
      ensures SwapsApplied(old(machine.state), transitions, outcomes, views, old(ActivityLists(machine.states)),
                           machine.role, machine.fleeTargets, env)
      ensures forall s | s in old(machine.states) && s != this ::
        var n := Entries(s, SwapEvents(old(machine.state), transitions, outcomes));
        && s.activities == old(s.activities) + Repeat(s.EntryList(machine.role, machine.fleeTargets), n)
        && old(s.transitions) <= s.transitions
        && (n == 0 ==> s.transitions == old(s.transitions))
    {
      RunActivities(machine, env);
      outcomes, views := AfterActivities(machine, env);
    }

    /** The rest of `execute`: the transition loop and the removal of one-shot activities. */
    method AfterActivities(machine: StateMachine, env: Env) returns (ghost outcomes: seq<bool>, ghost views: seq<Attrs>)
      requires machine.Valid() && this in machine.states
      modifies machine`state, machine`trace, machine`states, machine.sprite, machine.states
      ensures machine.Valid() && old(machine.states) <= machine.states
      ensures transitions == old(transitions)
      ensures Replayed(transitions, outcomes, views, machine.sprite, env.oracle)
      ensures views[0] == old(machine.sprite.View())
      ensures machine.state == Resolve(old(machine.state), transitions, outcomes)
      ensures machine.trace == old(machine.trace) + SwapEvents(old(machine.state), transitions, outcomes)
      ensures machine.sprite.View() == views[|transitions|]
      ensures activities == if kind == PointAndShoot || kind == Heal then Sweep(old(activities), 0, kind) else old(activities)
      ensures SwapsApplied(old(machine.state), transitions, outcomes, views, old(ActivityLists(machine.states)),
                           machine.role, machine.fleeTargets, env)
      ensures forall s | s in old(machine.states) && s != this ::
        var n := Entries(s, SwapEvents(old(machine.state), transitions, outcomes));
        && s.activities == old(s.activities) + Repeat(s.EntryList(machine.role, machine.fleeTargets), n)
        && old(s.transitions) <= s.transitions
        && (n == 0 ==> s.transitions == old(s.transitions))
    {
      ghost var s0, S0, ts := machine.state, machine.states, transitions;
      ghost var lists, trans0 := ActivityLists(S0), TransitionLists(S0);
      outcomes, views := RunTransitions(machine, env);
      ghost var now, tnow := ActivityLists(S0), TransitionLists(S0);
      if kind == PointAndShoot || kind == Heal {
        RemoveOneShots(machine, outcomes, views, env.oracle);
      }
      assert forall s | s in S0 && s != this :: s.activities == now[s] && s.transitions == tnow[s];
      ListsAfterLoop(S0, lists, trans0, now, tnow, SwapEvents(s0, ts, outcomes), machine.role, machine.fleeTargets);
    }

    /** The first loop of `execute` (IdleState's `execute` is a no-op; WaitForPull's is given). */
    method RunActivities(machine: StateMachine, env: Env)
      modifies machine.sprite
      ensures machine.sprite.View() == old(ActivityPhase(machine.sprite, machine.sprite.View(), env))
      ensures ActivityLists(machine.states) == old(ActivityLists(machine.states))
    {
      if kind == WaitForPull {
        machine.sprite.Set(env.pull(OnExecute, machine.sprite.View()));
      } else if kind != Idle {
        ExecuteAll(activities, machine.sprite, env);
      }
    }

    /** The second loop of `execute`, over this state's own transitions. */
    method RunTransitions(machine: StateMachine, env: Env) returns (ghost outcomes: seq<bool>, ghost views: seq<Attrs>)
      requires machine.Valid() && this in machine.states
      modifies machine`state, machine`trace, machine`states, machine.sprite, machine.states
      ensures machine.Valid() && old(machine.states) <= machine.states
      ensures transitions == old(transitions) && activities == old(activities)
      ensures Replayed(transitions, outcomes, views, machine.sprite, env.oracle)
      ensures views[0] == old(machine.sprite.View())
      ensures machine.state == Resolve(old(machine.state), transitions, outcomes)
      ensures machine.trace == old(machine.trace) + SwapEvents(old(machine.state), transitions, outcomes)
      ensures machine.sprite.View() == views[|transitions|]
      ensures SwapsApplied(old(machine.state), transitions, outcomes, views, old(ActivityLists(machine.states)),
                           machine.role, machine.fleeTargets, env)
      ensures Grown(ActivityLists(old(machine.states)), old(ActivityLists(machine.states)),
                    SwapEvents(old(machine.state), transitions, outcomes), machine.role, machine.fleeTargets)
      ensures Kept(TransitionLists(old(machine.states)), old(TransitionLists(machine.states)),
                   SwapEvents(old(machine.state), transitions, outcomes))
    {
      var ts := transitions;
      ghost var s0, tr0, S0 := machine.state, machine.trace, machine.states;
      ghost var lists, trans0 := ActivityLists(S0), TransitionLists(S0);
      outcomes, views := [], [machine.sprite.View()];
      var k := 0;
      while k < |ts|
        invariant 0 <= k <= |ts| && transitions == ts && activities == old(activities)
        invariant machine.Valid() && this in machine.states && old(machine.states) <= machine.states
        invariant forall s | s in machine.states && s !in old(machine.states) :: fresh(s)
        invariant Replayed(ts[..k], outcomes, views, machine.sprite, env.oracle) && views[0] == old(machine.sprite.View())
        invariant machine.state == Resolve(s0, ts[..k], outcomes)
        invariant machine.trace == tr0 + SwapEvents(s0, ts[..k], outcomes)
        invariant machine.sprite.View() == views[k]
        invariant machine.state in S0
        invariant Grown(ActivityLists(S0), lists, SwapEvents(s0, ts[..k], outcomes), machine.role, machine.fleeTargets)
        invariant Kept(TransitionLists(S0), trans0, SwapEvents(s0, ts[..k], outcomes))
        invariant SwapsApplied(s0, ts[..k], outcomes, views, lists, machine.role, machine.fleeTargets, env)
      {
        outcomes, views := Advance(machine, env, ts, k, s0, tr0, outcomes, views, S0, lists, trans0);
        k := k + 1;
      }
      assert ts[..|ts|] == ts;
    }

    /** One iteration of the transition loop: runs transition `k` and extends the replay,
        the activity lists `lists` and the transition lists `trans0` the states of `S0`
        started the loop with. */
    method Advance(machine: StateMachine, env: Env, ts: seq<Transition>, k: nat, ghost s0: State, ghost tr0: seq<Event>,
                   ghost outcomes: seq<bool>, ghost views: seq<Attrs>, ghost S0: set<State>,
                   ghost lists: map<State, seq<Activity>>, ghost trans0: map<State, seq<Transition>>)
      returns (ghost outcomes': seq<bool>, ghost views': seq<Attrs>)
      requires ts == transitions && k < |ts| && machine.Valid() && this in machine.states
      requires Replayed(ts[..k], outcomes, views, machine.sprite, env.oracle)
      requires machine.state == Resolve(s0, ts[..k], outcomes)
      requires machine.trace == tr0 + SwapEvents(s0, ts[..k], outcomes)
      requires machine.sprite.View() == views[k]
      requires S0 <= machine.states && machine.state in S0 && ClosedIn(S0) && lists.Keys == S0 && trans0.Keys == S0
      requires Grown(ActivityLists(S0), lists, SwapEvents(s0, ts[..k], outcomes), machine.role, machine.fleeTargets)
      requires Kept(TransitionLists(S0), trans0, SwapEvents(s0, ts[..k], outcomes))
      requires SwapsApplied(s0, ts[..k], outcomes, views, lists, machine.role, machine.fleeTargets, env)
      modifies machine`state, machine`trace, machine`states, machine.sprite, machine.states
      ensures transitions == ts && activities == old(activities)
      ensures machine.Valid() && old(machine.states) <= machine.states
      ensures forall s | s in machine.states && s !in old(machine.states) :: fresh(s)
      ensures Replayed(ts[..k + 1], outcomes', views', machine.sprite, env.oracle) && views'[0] == views[0]
      ensures machine.state == Resolve(s0, ts[..k + 1], outcomes')
      ensures machine.trace == tr0 + SwapEvents(s0, ts[..k + 1], outcomes')
      ensures machine.sprite.View() == views'[k + 1]
      ensures machine.state in S0
      ensures Grown(ActivityLists(S0), lists, SwapEvents(s0, ts[..k + 1], outcomes'), machine.role, machine.fleeTargets)
      ensures Kept(TransitionLists(S0), trans0, SwapEvents(s0, ts[..k + 1], outcomes'))
      ensures SwapsApplied(s0, ts[..k + 1], outcomes', views', lists, machine.role, machine.fleeTargets, env)
    {
      ghost var st, tr := machine.state, machine.trace;
      PrefixStep(ts, k);
      ghost var fired := RunTracked(machine, env, k, outcomes, views, s0, S0, lists, trans0);
      FoldOne(ts, k, s0, tr0, outcomes, views, machine.sprite, env.oracle, st, tr, fired, machine.sprite.View());
      outcomes', views' := outcomes + [fired], views + [machine.sprite.View()];
    }

    /** `RunOne` with the bookkeeping of the lists of the states `S0`. */
    method RunTracked(machine: StateMachine, env: Env, k: nat, ghost outcomes: seq<bool>, ghost views: seq<Attrs>,
                      ghost s0: State, ghost S0: set<State>,
                      ghost lists: map<State, seq<Activity>>, ghost trans0: map<State, seq<Transition>>)
      returns (ghost fired: bool)
      requires k < |transitions| && machine.Valid() && this in machine.states
      requires |outcomes| == k && machine.state == Resolve(s0, transitions[..k], outcomes)
      requires S0 <= machine.states && machine.state in S0 && ClosedIn(S0) && lists.Keys == S0 && trans0.Keys == S0
      requires Grown(ActivityLists(S0), lists, SwapEvents(s0, transitions[..k], outcomes), machine.role, machine.fleeTargets)
      requires Kept(TransitionLists(S0), trans0, SwapEvents(s0, transitions[..k], outcomes))
      requires SwapsApplied(s0, transitions[..k], outcomes, views, lists, machine.role, machine.fleeTargets, env)
      requires machine.sprite.View() == views[k]
      modifies machine`state, machine`trace, machine`states, machine.sprite, machine.states
      ensures transitions == old(transitions) && activities == old(activities)
      ensures machine.Valid() && old(machine.states) <= machine.states
      ensures forall s | s in machine.states && s !in old(machine.states) :: fresh(s)
      ensures fired == Decide(transitions[k].decision, machine.sprite, old(machine.sprite.View()), env.oracle)
      ensures old(Replayed(transitions[..k], outcomes, views, machine.sprite, env.oracle)) ==>
                Replayed(transitions[..k], outcomes, views, machine.sprite, env.oracle)
      ensures machine.state == Next(old(machine.state), transitions[k], fired)
      ensures machine.trace == old(machine.trace) + SwapOf(old(machine.state), transitions[k], fired)
      ensures transitions[k].Choice(fired) == null ==> machine.sprite.View() == old(machine.sprite.View())
      ensures machine.state in S0
      ensures Grown(ActivityLists(S0), lists, SwapEvents(s0, transitions[..k] + [transitions[k]], outcomes + [fired]),
                    machine.role, machine.fleeTargets)
      ensures Kept(TransitionLists(S0), trans0, SwapEvents(s0, transitions[..k] + [transitions[k]], outcomes + [fired]))
      ensures SwapsApplied(s0, transitions[..k] + [transitions[k]], outcomes + [fired], views + [machine.sprite.View()],
                           lists, machine.role, machine.fleeTargets, env)
    {
      ghost var st := machine.state;
      assert transitions[k] in transitions;
      ghost var before, tbefore := ActivityLists(S0), TransitionLists(S0);
      fired := RunOne(machine, env, k, outcomes, views, S0);
      TrackOne(S0, lists, trans0, s0, st, transitions[..k], outcomes, views, transitions[k], fired, machine.sprite.View(),
               machine.role, machine.fleeTargets, env, before, ActivityLists(S0), tbefore, TransitionLists(S0));
    }

    /** `transition.execute(machine)` for transition `k` of this state's list. */
    method RunOne(machine: StateMachine, env: Env, k: nat, ghost outcomes: seq<bool>, ghost views: seq<Attrs>, ghost S0: set<State>)
      returns (ghost fired: bool)
      requires k < |transitions| && machine.Valid() && this in machine.states
      requires S0 <= machine.states && machine.state in S0
      modifies machine`state, machine`trace, machine`states, machine.sprite, machine.states
      ensures transitions == old(transitions) && activities == old(activities)
      ensures machine.Valid() && old(machine.states) <= machine.states
      ensures forall s | s in machine.states && s !in old(machine.states) :: fresh(s)
      ensures fired == Decide(transitions[k].decision, machine.sprite, old(machine.sprite.View()), env.oracle)
      ensures old(Replayed(transitions[..k], outcomes, views, machine.sprite, env.oracle)) ==>
                Replayed(transitions[..k], outcomes, views, machine.sprite, env.oracle)
      ensures machine.state == Next(old(machine.state), transitions[k], fired)
      ensures machine.trace == old(machine.trace) + SwapOf(old(machine.state), transitions[k], fired)
      ensures transitions[k].Choice(fired) == null ==> machine.sprite.View() == old(machine.sprite.View())
      ensures transitions[k].Choice(fired) != null ==>
        var c := transitions[k].Choice(fired);
        machine.sprite.View() == old(c.EnterEffect(machine.state.ExitEffect(machine.sprite.View(), env), env))
      // The same, on the lists of the states `S0` as values.
      ensures transitions[k].Choice(fired) != null && transitions[k].Choice(fired) in S0 ==>
        var c := transitions[k].Choice(fired);
        && machine.sprite.View() == EnterOf(c.kind, old(ActivityLists(S0))[c],
             ExitOf(old(machine.state).kind, old(ActivityLists(S0))[old(machine.state)], old(machine.sprite.View()), env), env)
        && ActivityLists(S0)[c] == old(ActivityLists(S0))[c] + c.EntryList(machine.role, machine.fleeTargets)
        && old(TransitionLists(S0))[c] <= TransitionLists(S0)[c]
      ensures forall s | s in S0 && s != transitions[k].Choice(fired) ::
        ActivityLists(S0)[s] == old(ActivityLists(S0))[s] && TransitionLists(S0)[s] == old(TransitionLists(S0))[s]
    {
      assert transitions[k] in transitions;
      assert transitions[k].trueState != this && transitions[k].falseState != this;
      fired := transitions[k].Execute(machine, env);
      // The decisions read other sprites only, which no swap touches.
      TargetsOfPrefix(transitions, k);
      assert forall o | o in DecisionTargets(transitions[..k]) - {machine.sprite} :: o.pos == old(o.pos);
      assert forall o | o in transitions[k].decision.Reads() - {machine.sprite} ::
        o in DecisionTargets(transitions) && o.pos == old(o.pos);
    }

    /** `for activity in self.activities: if type(activity) == ...: self.activities.remove(activity)`.
        Python's list iterator walks by index, so a removal makes it skip the next element. */
    /** The removal loop, which leaves the transitions' replay as it was. */
    method RemoveOneShots(machine: StateMachine, ghost outcomes: seq<bool>, ghost views: seq<Attrs>, ghost oracle: Oracle)
      requires machine.Valid() && this in machine.states && !KeepsNoLists(kind)
      requires Replayed(transitions, outcomes, views, machine.sprite, oracle)
      modifies this`activities
      ensures activities == Sweep(old(activities), 0, kind)
      ensures machine.Valid() && Replayed(transitions, outcomes, views, machine.sprite, oracle)
    {
      SweepOneShots(machine);
      assert forall o | o in DecisionTargets(transitions) - {machine.sprite} :: o.pos == old(o.pos);
    }

    method SweepOneShots(ghost machine: StateMachine)
      requires machine.Valid() && this in machine.states && !KeepsNoLists(kind)
      modifies this`activities
      ensures activities == Sweep(old(activities), 0, kind)
      ensures machine.Valid()
    {
      var i := 0;
      while i < |activities|
        invariant Sweep(activities, i, kind) == Sweep(old(activities), 0, kind)
        decreases |activities| - i
      {
        if OneShot(kind, activities[i]) {
          activities := activities[..i] + activities[i + 1..];
        }
        i := i + 1;
      }
      forall s | s in machine.states ensures s.Fits(machine.role) && s.ClosedIn(machine.states) {
        if s != this {
          assert old(s.Fits(machine.role) && s.ClosedIn(machine.states));
        }
      }
    }

    /** The concrete `enter` methods. */
    method Enter(machine: StateMachine, env: Env)
      requires machine.Valid() && this in machine.states
      modifies this`activities, this`transitions, machine`trace, machine`states, machine.sprite
      ensures machine.Valid() && old(machine.states) <= machine.states
      ensures forall s | s in machine.states && s !in old(machine.states) :: fresh(s)
      ensures machine.trace == old(machine.trace) + [Entered(this)]
      ensures machine.sprite.View() == old(EnterEffect(machine.sprite.View(), env))
      ensures activities == old(activities) + EntryActivities(kind, target, machine.role, machine.fleeTargets)
      ensures Extends(old(transitions), old(EntryEdges(kind, target, machine.role, machine.sprite.View())))
      ensures forall k | old(|transitions|) <= k < |transitions| :: fresh(transitions[k].trueState)
    {
      if kind == Plain || KeepsNoLists(kind) {
        EnterBody(machine, env);
        assert transitions[..|transitions|] == transitions;
        assert forall s | s in machine.states :: s.Fits(machine.role) && s.ClosedIn(machine.states) by {
          assert machine.states == old(machine.states);
          assert forall s | s in machine.states :: old(s.Fits(machine.role) && s.ClosedIn(machine.states));
        }
      } else {
        EnterLists(machine, machine.sprite.View());
      }
      machine.trace := machine.trace + [Entered(this)];
    }

    /** The `enter` of the states that build no lists: a plain State enters its activities
        and transitions, IdleState stops the body, WaitForPull acts as given. */
    method EnterBody(machine: StateMachine, env: Env)
      requires kind == Plain || KeepsNoLists(kind)
      modifies machine.sprite
      ensures machine.sprite.View() == old(EnterEffect(machine.sprite.View(), env))
    {
      if kind == Plain {
        HookEach(OnEnter, activities, machine.sprite, env);
        EnterEach(transitions, machine);
      } else if kind == Idle {
        machine.sprite.vel := Zero;
      } else {
        machine.sprite.Set(env.pull(OnEnter, machine.sprite.View()));
      }
    }

    /** The `enter` of the states that build lists: the activities, then one transition per
        new state, appended in the order the source writes them. */
    method EnterLists(machine: StateMachine, v: Attrs)
      requires machine.Valid() && this in machine.states && !(kind == Plain || KeepsNoLists(kind))
      modifies this`activities, this`transitions, machine`states
      ensures machine.Valid() && old(machine.states) <= machine.states
      ensures forall s | s in machine.states && s !in old(machine.states) :: fresh(s)
      ensures activities == old(activities) + EntryActivities(kind, target, machine.role, machine.fleeTargets)
      ensures Extends(old(transitions), EntryEdges(kind, target, machine.role, v))
      ensures forall k | old(|transitions|) <= k < |transitions| :: fresh(transitions[k].trueState)
    {
      AddActivities(machine.role, machine.fleeTargets);
      AddEdges(machine, EntryEdges(kind, target, machine.role, v));
    }

    /** The `self.activities.append(...)` calls of a list-building `enter`. */
    method AddActivities(role: Role, fleeTargets: seq<Sprite>)
      requires Buildable(kind, target) && !(kind == Plain || KeepsNoLists(kind)) && role.Fighter?
      modifies this`activities
      ensures activities == old(activities) + EntryActivities(kind, target, role, fleeTargets)
    {
      if kind == SeekAndFlee {
        activities := activities + [SeekTarget(role.target), PointInDirectionOfTravel, AvoidObstacles(role.rocks)];
        AppendFlees(fleeTargets);
      } else if kind == NavigateToPoint || kind == FleeFromPlayer {
        activities := activities + [SeekTarget(target), PointInDirectionOfTravel, AvoidObstacles(role.rocks)];
      } else if kind == PointAndShoot {
        activities := activities + [Fire, PointTowardsTarget(role.target)];
      } else {
        activities := activities + [HealActivity];
      }
    }

    /** Appends, for each edge in order, a transition to a new state built for it. */
    method AddEdges(machine: StateMachine, es: seq<Edge>)
      requires machine.Valid() && this in machine.states && !KeepsNoLists(kind)
      requires forall e | e in es :: e.next != Plain && e.next != Idle && !KeepsNoLists(e.next) && (NeedsFighter(e.next) ==> machine.role.Fighter?)
      modifies this`transitions, machine`states
      ensures machine.Valid() && old(machine.states) <= machine.states
      ensures forall s | s in machine.states && s !in old(machine.states) :: fresh(s)
      ensures Extends(old(transitions), es)
      ensures forall k | old(|transitions|) <= k < |transitions| :: fresh(transitions[k].trueState)
    {
      ghost var ts0 := transitions;
      for i := 0 to |es|
        invariant machine.Valid() && this in machine.states && old(machine.states) <= machine.states
        invariant forall s | s in machine.states && s !in old(machine.states) :: fresh(s)
        invariant Extends(ts0, es[..i])
        invariant forall k | |ts0| <= k < |transitions| :: fresh(transitions[k].trueState)
      {
        assert es[i] in es;
        AddEdgeAt(machine, ts0, es, i);
      }
      assert es[..|es|] == es;
    }

    /** One iteration of `AddEdges`: the transition for edge `i`. */
    method AddEdgeAt(machine: StateMachine, ghost ts0: seq<Transition>, es: seq<Edge>, i: nat)
      requires machine.Valid() && this in machine.states && !KeepsNoLists(kind)
      requires i < |es| && Extends(ts0, es[..i])
      requires es[i].next != Plain && es[i].next != Idle && !KeepsNoLists(es[i].next)
      requires NeedsFighter(es[i].next) ==> machine.role.Fighter?
      modifies this`transitions, machine`states
      ensures machine.Valid() && old(machine.states) <= machine.states
      ensures forall s | s in machine.states && s !in old(machine.states) :: fresh(s)
      ensures Extends(ts0, es[..i + 1])
      ensures transitions[..old(|transitions|)] == old(transitions) && fresh(transitions[old(|transitions|)].trueState)
    {
      AddNew(machine, es[i].decision, es[i].next, es[i].at);
      forall k | 0 <= k < i
        ensures Realises(transitions[|ts0| + k], es[k])
      {
        assert transitions[|ts0| + k] == old(transitions[|ts0| + k]);
        assert old(Realises(transitions[|ts0| + k], es[..i][k]));
      }
    }

    /** The transitions appended to `ts0` realise the edges `es`, in order. */
    ghost predicate Extends(ts0: seq<Transition>, es: seq<Edge>)
      reads this, set k, o | 0 <= k < |transitions| && o in EdgeFootprint(transitions[k]) :: o
    {
      && |transitions| == |ts0| + |es| && transitions[..|ts0|] == ts0
      && forall k | 0 <= k < |es| :: Realises(transitions[|ts0| + k], es[k])
    }

    /** Builds the state of kind `next` (at `at`, for the kinds with a point) and appends
        the transition to it. */
    method AddNew(machine: StateMachine, decision: Decision, next: StateKind, at: Vec)
      requires machine.Valid() && this in machine.states && !KeepsNoLists(kind)
      requires next != Plain && next != Idle && !KeepsNoLists(next) && (NeedsFighter(next) ==> machine.role.Fighter?)
      modifies this`transitions, machine`states
      ensures machine.Valid() && old(machine.states) <= machine.states
      ensures forall s | s in machine.states && s !in old(machine.states) :: fresh(s)
      ensures |transitions| == old(|transitions|) + 1 && transitions[..old(|transitions|)] == old(transitions)
      ensures Realises(transitions[old(|transitions|)], Edge(decision, next, at))
      ensures fresh(transitions[old(|transitions|)].trueState)
    {
      var s: State;
      if next == NavigateToPoint || next == FleeFromPlayer {
        s := new State.At(next, at.x, at.y);
      } else {
        s := new State(next);
      }
      AddEdge(machine, decision, s);
    }

    /** `for flee_target in flee_targets: self.activities.append(Flee(flee_target))`. */
    method AppendFlees(targets: seq<Sprite>)
      modifies this`activities
      ensures activities == old(activities) + FleeAll(targets)
    {
      for i := 0 to |targets|
        invariant activities == old(activities) + FleeAll(targets[..i])
      {
        activities := activities + [FleeTarget(targets[i])];
        assert targets[..i + 1][..i] == targets[..i];
      }
      assert targets[..|targets|] == targets;
    }

    /** `self.transitions.append(Transition(decision, next, None))` for a new state `next`. */
    method AddEdge(machine: StateMachine, decision: Decision, next: State)
      requires machine.Valid() && this in machine.states && next !in machine.states
      requires next.Fits(machine.role) && next.transitions == [] && !KeepsNoLists(kind)
      modifies this`transitions, machine`states
      ensures machine.Valid() && machine.states == old(machine.states) + {next}
      ensures transitions == old(transitions) + [Transition(decision, next, null)]
    {
      transitions := transitions + [Transition(decision, next, null)];
      machine.states := machine.states + {next};
      assert next.ClosedIn(machine.states);
      assert ClosedIn(machine.states) by {
        forall t | t in transitions
          ensures t.PointsInto(machine.states) && t.trueState != this && t.falseState != this
        {
          if t !in old(transitions) {
            assert t == Transition(decision, next, null);
          }
        }
      }
      forall s | s in machine.states
        ensures s.Fits(machine.role) && s.ClosedIn(machine.states)
      {
        if s != this && s != next {
          assert s.ClosedIn(old(machine.states));
        }
      }
    }

    /** `State.exit` (IdleState's is BaseState's no-op; WaitForPull's is given). */
    method Exit(machine: StateMachine, env: Env)
      modifies machine`trace, machine.sprite
      ensures machine.trace == old(machine.trace) + [Exited(this)]
      ensures machine.sprite.View() == old(ExitEffect(machine.sprite.View(), env))
    {
      if kind == WaitForPull {
        machine.sprite.Set(env.pull(OnExit, machine.sprite.View()));
      } else if kind != Idle {
        HookEach(OnExit, activities, machine.sprite, env);
        ExitEach(transitions, machine);
      }
      machine.trace := machine.trace + [Exited(this)];
    }
  }

  /** What `Realises(t, e)` reads: the target state. */
  function EdgeFootprint(t: Transition): set<object> {
    if t.trueState == null then {} else {t.trueState}
  }

  /** `t` is the transition `enter` builds for `e`: its decision, a new, not yet entered
      true target of the edge's kind (at the edge's point, for the kinds with one) and no
      false target. */
  ghost predicate Realises(t: Transition, e: Edge)
    reads EdgeFootprint(t)
  {
    && t.decision == e.decision && t.falseState == null && t.trueState != null
    && t.trueState.kind == e.next && t.trueState.WellFormed()
    && t.trueState.activities == [] && t.trueState.transitions == []
    && (e.next == NavigateToPoint || e.next == FleeFromPlayer ==> t.trueState.point == e.at)
  }

  class StateMachine {
    const sprite: Sprite
    const role: Role
    var state: State
    var fleeTargets: seq<Sprite>   // FighterStateMachine.flee_targets
    var otherBees: seq<Sprite>     // BeeStateMachine.other_bees
    ghost var states: set<State>
    ghost var trace: seq<Event>

    ghost predicate Valid()
      reads this`state, this`states, states
    {
      && state in states
      && (forall s | s in states :: s.Fits(role) && s.ClosedIn(states))
    }

    /** `StateMachine(sprite)`: a fresh, empty `State()`. */
    constructor (sprite: Sprite)
      ensures Valid() && this.sprite == sprite && role == Base
      ensures fresh(state) && state.kind == Plain && state.activities == [] && state.transitions == []
      ensures fleeTargets == [] && otherBees == [] && trace == [] && states == {state}
    {
      this.sprite, role := sprite, Base;
      var s := new State(Plain);
      state, fleeTargets, otherBees := s, [], [];
      states, trace := {s}, [];
    }

    /** `FighterStateMachine(sprite, physics_engine, bullet_list, player_sprite, rocks)`. */
    constructor ForFighter(sprite: Sprite, physicsEngine: PhysicsEngine, bulletList: SpriteList, player: Sprite, rocks: SpriteList)
      ensures Valid() && this.sprite == sprite && role == Fighter(player, bulletList, physicsEngine, rocks)
      ensures fresh(state) && state.kind == Plain && state.activities == [] && state.transitions == []
      ensures fleeTargets == [] && otherBees == [] && trace == [] && states == {state}
    {
      this.sprite, role := sprite, Fighter(player, bulletList, physicsEngine, rocks);
      var s := new State(Plain);
      state, fleeTargets, otherBees := s, [], [];
      states, trace := {s}, [];
    }

    /** `BeeStateMachine(sprite, physics_engine, player_sprite)`: the state is a WaitForPull. */
    constructor ForBee(sprite: Sprite, physicsEngine: PhysicsEngine, player: Sprite)
      ensures Valid() && this.sprite == sprite && role == Bee(player, physicsEngine)
      ensures fresh(state) && state.kind == WaitForPull && state.target == player
      ensures fleeTargets == [] && otherBees == [] && trace == [] && states == {state}
    {
      this.sprite, role := sprite, Bee(player, physicsEngine);
      var s := new State.Waiting(player);
      state, fleeTargets, otherBees := s, [], [];
      states, trace := {s}, [];
    }

    /** `update`: one `execute` of the current state. */
    method Update(env: Env) returns (ghost outcomes: seq<bool>, ghost views: seq<Attrs>)
      requires Valid()
      modifies this`state, this`trace, this`states, sprite, states
      ensures Valid() && old(states) <= states
      ensures var s := old(state); var ts := old(state.transitions);
        && Replayed(ts, outcomes, views, sprite, env.oracle)
        && views[0] == old(s.ActivityPhase(sprite, sprite.View(), env))
        && state == Resolve(s, ts, outcomes)
        && trace == old(trace) + SwapEvents(s, ts, outcomes)
        && sprite.View() == views[|ts|]
        && SwapsApplied(s, ts, outcomes, views, old(ActivityLists(states)), role, fleeTargets, env)
      ensures var s := old(state);
        && s.transitions == old(s.transitions)
        && s.activities == if s.kind == PointAndShoot || s.kind == Heal then Sweep(old(s.activities), 0, s.kind) else old(s.activities)
      ensures var s := old(state); var evs := SwapEvents(s, old(state.transitions), outcomes);
        forall st | st in old(states) && st != s ::
          && st.activities == old(st.activities) + Repeat(st.EntryList(role, fleeTargets), Entries(st, evs))
          && old(st.transitions) <= st.transitions
          && (Entries(st, evs) == 0 ==> st.transitions == old(st.transitions))
    {
      outcomes, views := state.Execute(this, env);
    }

    /** `awake`: a FighterStateMachine starts a new SeekAndFleeState and enters it; a
        BeeStateMachine enters its current state; the base one does nothing. */
    method Awake(env: Env)
      requires Valid()
      modifies this`state, this`trace, this`states, sprite, states
      ensures Valid() && old(states) <= states
      ensures role.Base? ==> state == old(state) && trace == old(trace) && sprite.View() == old(sprite.View())
      ensures role.Fighter? ==>
        && fresh(state) && state.kind == SeekAndFlee
        && state.activities == EntryActivities(SeekAndFlee, null, role, fleeTargets)
        && state.Extends([], old(EntryEdges(SeekAndFlee, null, role, sprite.View())))
        && trace == old(trace) + [Assigned(state), Entered(state)]
        && sprite.View() == old(sprite.View())
      ensures role.Bee? ==>
        && state == old(state) && trace == old(trace) + [Entered(state)]
        && sprite.View() == old(state.EnterEffect(sprite.View(), env))
    {
      if role.Fighter? {
        var s := new State(SeekAndFlee);
        ghost var es := EntryEdges(SeekAndFlee, null, role, sprite.View());
        state := s;
        states := states + {s};
        forall t | t in states ensures t.Fits(role) && t.ClosedIn(states) {
          if t != s {
            assert t.ClosedIn(old(states));
          }
        }
        trace := trace + [Assigned(s)];
        s.Enter(this, env);
        assert s.Extends([], es);
      } else if role.Bee? {
        state.Enter(this, env);
      }
    }

    /** `start`: does nothing. */
    method Start()
      ensures unchanged(this, sprite, states)
    {
    }
  }

  /** The state after one transition with decision `fired`, starting from `s`. */
  function Next(s: State, t: Transition, fired: bool): State {
    if t.Choice(fired) == null then s else t.Choice(fired)
  }

  /** The trace of one transition with decision `fired`, starting from `s`. */
  function SwapOf(s: State, t: Transition, fired: bool): seq<Event> {
    if t.Choice(fired) == null then [] else [Exited(s), Assigned(t.Choice(fired)), Entered(t.Choice(fired))]
  }

  /** The current state after the transitions `ts` run in list order with decisions `outcomes`. */
  function Resolve(s: State, ts: seq<Transition>, outcomes: seq<bool>): State
    requires |outcomes| == |ts|
    decreases |ts|
  {
    if |ts| == 0 then s else Resolve(Next(s, ts[0], outcomes[0]), ts[1..], outcomes[1..])
  }

  /** The trace the transitions `ts` leave, run in list order with decisions `outcomes`. */
  function SwapEvents(s: State, ts: seq<Transition>, outcomes: seq<bool>): seq<Event>
    requires |outcomes| == |ts|
    decreases |ts|
  {
    if |ts| == 0 then [] else SwapOf(s, ts[0], outcomes[0]) + SwapEvents(Next(s, ts[0], outcomes[0]), ts[1..], outcomes[1..])
  }

  /** The sprites the decisions of `ts` read besides the agent's own. */
  function DecisionTargets(ts: seq<Transition>): set<Sprite> {
    set t, o | t in ts && o in t.decision.Reads() :: o
  }

  /** The transitions `ts` ran in order for agent `self`: `views[k]` is the agent's
      attributes when transition `k` evaluated its decision, `outcomes[k]` what the decision
      answered, and a transition that swapped nothing left the attributes as they were. */
  ghost predicate Replayed(ts: seq<Transition>, outcomes: seq<bool>, views: seq<Attrs>, self: Sprite, oracle: Oracle)
    reads DecisionTargets(ts) - {self}
  {
    && |outcomes| == |ts| && |views| == |ts| + 1
    && (forall k | 0 <= k < |ts| :: ts[k] in ts && outcomes[k] == Decide(ts[k].decision, self, views[k], oracle))
    && (forall k | 0 <= k < |ts| :: ts[k].Choice(outcomes[k]) == null ==> views[k + 1] == views[k])
  }

  /** One more transition, decided on the last view, extends the replay. */
  lemma ReplayedStep(ts: seq<Transition>, outcomes: seq<bool>, views: seq<Attrs>, self: Sprite, oracle: Oracle,
                     t: Transition, fired: bool, after: Attrs)
    requires Replayed(ts, outcomes, views, self, oracle)
    requires fired == Decide(t.decision, self, views[|ts|], oracle)
    requires t.Choice(fired) == null ==> after == views[|ts|]
    ensures Replayed(ts + [t], outcomes + [fired], views + [after], self, oracle)
  {
    var ts', os', vs' := ts + [t], outcomes + [fired], views + [after];
    forall k | 0 <= k < |ts'|
      ensures ts'[k] in ts' && os'[k] == Decide(ts'[k].decision, self, vs'[k], oracle)
    {
      if k < |ts| {
        assert ts'[k] == ts[k] && os'[k] == outcomes[k] && vs'[k] == views[k];
      }
    }
  }

  lemma TargetsOfPrefix(ts: seq<Transition>, n: nat)
    requires n <= |ts|
    ensures DecisionTargets(ts[..n]) <= DecisionTargets(ts)
  {
    forall o | o in DecisionTargets(ts[..n]) ensures o in DecisionTargets(ts) {
      var t :| t in ts[..n] && o in t.decision.Reads();
      assert t in ts;
    }
  }

  /** One more step of the transition loop extends the replay, the resolved state and the
      trace together. */
  lemma FoldOne(ts: seq<Transition>, k: nat, s0: State, tr0: seq<Event>, outcomes: seq<bool>, views: seq<Attrs>,
                self: Sprite, oracle: Oracle, st: State, tr: seq<Event>, fired: bool, after: Attrs)
    requires k < |ts| && Replayed(ts[..k], outcomes, views, self, oracle)
    requires st == Resolve(s0, ts[..k], outcomes) && tr == tr0 + SwapEvents(s0, ts[..k], outcomes)
    requires fired == Decide(ts[k].decision, self, views[k], oracle)
    requires ts[k].Choice(fired) == null ==> after == views[k]
    ensures Replayed(ts[..k + 1], outcomes + [fired], views + [after], self, oracle)
    ensures Next(st, ts[k], fired) == Resolve(s0, ts[..k + 1], outcomes + [fired])
    ensures tr + SwapOf(st, ts[k], fired) == tr0 + SwapEvents(s0, ts[..k + 1], outcomes + [fired])
  {
    assert ts[..k + 1] == ts[..k] + [ts[k]];
    FoldStep(s0, ts[..k], outcomes, ts[k], fired);
    ReplayedStep(ts[..k], outcomes, views, self, oracle, ts[k], fired, after);
  }

  lemma PrefixStep(ts: seq<Transition>, k: nat)
    requires k < |ts|
    ensures ts[..k + 1] == ts[..k] + [ts[k]]
  {
  }

  /** `more` appended `n` times. */
  function Repeat(more: seq<Activity>, n: nat): seq<Activity> {
    if n == 0 then [] else Repeat(more, n - 1) + more
  }

  /** How many times the trace `evs` enters `s`. */
  function Entries(s: State, evs: seq<Event>): nat
    decreases |evs|
  {
    if |evs| == 0 then 0 else Entries(s, evs[..|evs| - 1]) + (if evs[|evs| - 1] == Entered(s) then 1 else 0)
  }

  /** The activities of `s` once the swaps recorded in `evs` have run, when the states
      started with the activity lists `lists`: each entry appended one more entry list. */
  function ListAfter(s: State, lists: map<State, seq<Activity>>, evs: seq<Event>, role: Role, fleeTargets: seq<Sprite>): seq<Activity> {
    (if s in lists then lists[s] else []) + Repeat(s.EntryList(role, fleeTargets), Entries(s, evs))
  }

  /** The activity lists of the states `ss`, as values. */
  ghost function ActivityLists(ss: set<State>): (r: map<State, seq<Activity>>)
    reads ss
    ensures r.Keys == ss
  {
    map s | s in ss :: s.activities
  }

  /** The transition lists of the states `ss`, as values. */
  ghost function TransitionLists(ss: set<State>): (r: map<State, seq<Transition>>)
    reads ss
    ensures r.Keys == ss
  {
    map s | s in ss :: s.transitions
  }

  /** The agent's attributes after a swap from `cur` to `c` taken when the trace so far is
      `evs`: the exit effect of `cur`, then the entry effect of `c`, each on the activities
      that state holds at that moment. */
  function SwapView(cur: State, c: State, evs: seq<Event>, v: Attrs, lists: map<State, seq<Activity>>,
                    role: Role, fleeTargets: seq<Sprite>, env: Env): Attrs {
    EnterOf(c.kind, ListAfter(c, lists, evs, role, fleeTargets),
            ExitOf(cur.kind, ListAfter(cur, lists, evs, role, fleeTargets), v, env), env)
  }

  /** Every transition of the loop that swapped, starting from `s0` with the activity lists
      `lists`, left the agent's attributes at the `SwapView` of the state it left and the
      state it entered. */
  predicate SwapsApplied(s0: State, ts: seq<Transition>, outcomes: seq<bool>, views: seq<Attrs>,
                         lists: map<State, seq<Activity>>, role: Role, fleeTargets: seq<Sprite>, env: Env)
  {
    && |outcomes| == |ts| && |views| == |ts| + 1
    && forall k | 0 <= k < |ts| && ts[k].Choice(outcomes[k]) != null ::
         views[k + 1] == SwapView(Resolve(s0, ts[..k], outcomes[..k]), ts[k].Choice(outcomes[k]),
                                  SwapEvents(s0, ts[..k], outcomes[..k]), views[k], lists, role, fleeTargets, env)
  }

  /** In `now`, every state of `lists` holds its starting activities plus one entry list per
      entry recorded in `evs`. */
  predicate Grown(now: map<State, seq<Activity>>, lists: map<State, seq<Activity>>, evs: seq<Event>,
                  role: Role, fleeTargets: seq<Sprite>)
  {
    forall s | s in lists :: s in now && now[s] == ListAfter(s, lists, evs, role, fleeTargets)
  }

  /** In `now`, every state of `trans0` still begins with its starting transitions, and holds
      exactly them when `evs` never entered it. */
  predicate Kept(now: map<State, seq<Transition>>, trans0: map<State, seq<Transition>>, evs: seq<Event>) {
    forall s | s in trans0 :: s in now && trans0[s] <= now[s] && (Entries(s, evs) == 0 ==> now[s] == trans0[s])
  }

  /** A swap enters its target once more and no other state. */
  lemma EntriesStep(s: State, evs: seq<Event>, cur: State, t: Transition, fired: bool)
    ensures Entries(s, evs + SwapOf(cur, t, fired)) == Entries(s, evs) + (if t.Choice(fired) == s then 1 else 0)
  {
    if t.Choice(fired) != null {
      var c := t.Choice(fired);
      var e, e1, e2 := evs + SwapOf(cur, t, fired), evs + [Exited(cur), Assigned(c)], evs + [Exited(cur)];
      assert e[..|e| - 1] == e1 && e[|e| - 1] == Entered(c);
      assert e1[..|e1| - 1] == e2 && e1[|e1| - 1] == Assigned(c);
      assert e2[..|e2| - 1] == evs && e2[|e2| - 1] == Exited(cur);
      assert Entries(s, e2) == Entries(s, evs);
      assert Entries(s, e1) == Entries(s, e2);
    } else {
      assert evs + SwapOf(cur, t, fired) == evs;
    }
  }

  lemma RepeatStep(more: seq<Activity>, n: nat)
    ensures Repeat(more, n + 1) == Repeat(more, n) + more
  {
  }

  /** A swap that entered `c` once grows `c`'s activities by one entry list and leaves the
      other states' lists as they were. */
  lemma GrownStep(before: map<State, seq<Activity>>, after: map<State, seq<Activity>>, lists: map<State, seq<Activity>>,
                  evs: seq<Event>, cur: State, t: Transition, fired: bool, role: Role, fleeTargets: seq<Sprite>)
    requires Grown(before, lists, evs, role, fleeTargets)
    requires forall s | s in lists && s != t.Choice(fired) :: s in after && after[s] == before[s]
    requires t.Choice(fired) != null && t.Choice(fired) in lists ==>
      t.Choice(fired) in after && after[t.Choice(fired)] == before[t.Choice(fired)] + t.Choice(fired).EntryList(role, fleeTargets)
    ensures Grown(after, lists, evs + SwapOf(cur, t, fired), role, fleeTargets)
  {
    forall s | s in lists
      ensures s in after && after[s] == ListAfter(s, lists, evs + SwapOf(cur, t, fired), role, fleeTargets)
    {
      GrownOne(s, before[s], after[s], lists[s], evs, cur, t, fired, role, fleeTargets);
    }
  }

  /** `GrownStep` for one state, on its lists as values. */
  lemma GrownOne(s: State, before: seq<Activity>, after: seq<Activity>, start: seq<Activity>,
                 evs: seq<Event>, cur: State, t: Transition, fired: bool, role: Role, fleeTargets: seq<Sprite>)
    requires before == start + Repeat(s.EntryList(role, fleeTargets), Entries(s, evs))
    requires after == if s == t.Choice(fired) then before + s.EntryList(role, fleeTargets) else before
    ensures after == start + Repeat(s.EntryList(role, fleeTargets), Entries(s, evs + SwapOf(cur, t, fired)))
  {
    var e, n := s.EntryList(role, fleeTargets), Entries(s, evs);
    EntriesStep(s, evs, cur, t, fired);
    if s == t.Choice(fired) {
      RepeatStep(e, n);
    }
  }

  /** The same for the transition lists: the entered state only appends, the others keep theirs. */
  lemma KeptStep(before: map<State, seq<Transition>>, after: map<State, seq<Transition>>, trans0: map<State, seq<Transition>>,
                 evs: seq<Event>, cur: State, t: Transition, fired: bool)
    requires Kept(before, trans0, evs)
    requires forall s | s in trans0 && s != t.Choice(fired) :: s in after && after[s] == before[s]
    requires t.Choice(fired) != null && t.Choice(fired) in trans0 ==>
      t.Choice(fired) in after && before[t.Choice(fired)] <= after[t.Choice(fired)]
    ensures Kept(after, trans0, evs + SwapOf(cur, t, fired))
  {
    forall s | s in trans0
      ensures s in after && trans0[s] <= after[s] && (Entries(s, evs + SwapOf(cur, t, fired)) == 0 ==> after[s] == trans0[s])
    {
      EntriesStep(s, evs, cur, t, fired);
      if s == t.Choice(fired) {
        assert after[s][..|before[s]|] == before[s];
        assert after[s][..|trans0[s]|] == after[s][..|before[s]|][..|trans0[s]|];
      }
    }
  }

  /** One more transition, applied as `SwapView` says when it swaps, extends `SwapsApplied`. */
  lemma SwapsAppliedStep(s0: State, ts: seq<Transition>, outcomes: seq<bool>, views: seq<Attrs>,
                         lists: map<State, seq<Activity>>, role: Role, fleeTargets: seq<Sprite>, env: Env,
                         t: Transition, fired: bool, after: Attrs)
    requires SwapsApplied(s0, ts, outcomes, views, lists, role, fleeTargets, env)
    requires t.Choice(fired) != null ==>
      after == SwapView(Resolve(s0, ts, outcomes), t.Choice(fired), SwapEvents(s0, ts, outcomes), views[|ts|], lists, role, fleeTargets, env)
    ensures SwapsApplied(s0, ts + [t], outcomes + [fired], views + [after], lists, role, fleeTargets, env)
  {
    var ts', os', vs' := ts + [t], outcomes + [fired], views + [after];
    forall k | 0 <= k < |ts'| && ts'[k].Choice(os'[k]) != null
      ensures vs'[k + 1] == SwapView(Resolve(s0, ts'[..k], os'[..k]), ts'[k].Choice(os'[k]),
                                     SwapEvents(s0, ts'[..k], os'[..k]), vs'[k], lists, role, fleeTargets, env)
    {
      assert ts'[..k] == ts[..k] && os'[..k] == outcomes[..k] && vs'[k] == views[k];
      if k < |ts| {
        assert ts'[k] == ts[k] && os'[k] == outcomes[k] && vs'[k + 1] == views[k + 1];
      } else {
        assert ts[..k] == ts && outcomes[..k] == outcomes;
      }
    }
  }

  /** The bookkeeping of one transition of the loop that started from `s0` with the states
      `S0`: the swap, if any, grew its target's lists, left every other state's lists
      alone, and set the agent's attributes as `SwapView` says. */
  lemma TrackOne(S0: set<State>, lists: map<State, seq<Activity>>, trans0: map<State, seq<Transition>>,
                 s0: State, st: State, ts: seq<Transition>, outcomes: seq<bool>, views: seq<Attrs>,
                 t: Transition, fired: bool, after: Attrs, role: Role, fleeTargets: seq<Sprite>, env: Env,
                 before: map<State, seq<Activity>>, now: map<State, seq<Activity>>,
                 tbefore: map<State, seq<Transition>>, tnow: map<State, seq<Transition>>)
    requires |outcomes| == |ts| && st == Resolve(s0, ts, outcomes) && st in S0
    requires before.Keys == S0 && now.Keys == S0 && tbefore.Keys == S0 && tnow.Keys == S0
    requires Grown(before, lists, SwapEvents(s0, ts, outcomes), role, fleeTargets)
    requires Kept(tbefore, trans0, SwapEvents(s0, ts, outcomes))
    requires SwapsApplied(s0, ts, outcomes, views, lists, role, fleeTargets, env)
    requires forall s | s in S0 && s != t.Choice(fired) :: now[s] == before[s] && tnow[s] == tbefore[s]
    requires t.Choice(fired) != null ==> t.Choice(fired) in S0 && t.Choice(fired) in lists
    requires t.Choice(fired) != null && t.Choice(fired) in S0 ==>
      var c := t.Choice(fired);
      && after == EnterOf(c.kind, before[c], ExitOf(st.kind, before[st], views[|ts|], env), env)
      && now[c] == before[c] + c.EntryList(role, fleeTargets)
      && tbefore[c] <= tnow[c]
    requires st in lists
    ensures Grown(now, lists, SwapEvents(s0, ts + [t], outcomes + [fired]), role, fleeTargets)
    ensures Kept(tnow, trans0, SwapEvents(s0, ts + [t], outcomes + [fired]))
    ensures SwapsApplied(s0, ts + [t], outcomes + [fired], views + [after], lists, role, fleeTargets, env)
  {
    var evs := SwapEvents(s0, ts, outcomes);
    FoldStep(s0, ts, outcomes, t, fired);
    GrownStep(before, now, lists, evs, st, t, fired, role, fleeTargets);
    KeptStep(tbefore, tnow, trans0, evs, st, t, fired);
    if t.Choice(fired) != null {
      var c := t.Choice(fired);
      assert before[c] == ListAfter(c, lists, evs, role, fleeTargets);
      assert before[st] == ListAfter(st, lists, evs, role, fleeTargets);
    }
    SwapsAppliedStep(s0, ts, outcomes, views, lists, role, fleeTargets, env, t, fired, after);
  }

  /** `Grown` and `Kept` over the whole of `S0`, read state by state. */
  lemma ListsAfterLoop(S0: set<State>, lists: map<State, seq<Activity>>, trans0: map<State, seq<Transition>>,
                       now: map<State, seq<Activity>>, tnow: map<State, seq<Transition>>, evs: seq<Event>,
                       role: Role, fleeTargets: seq<Sprite>)
    requires lists.Keys == S0 && trans0.Keys == S0
    requires Grown(now, lists, evs, role, fleeTargets) && Kept(tnow, trans0, evs)
    ensures forall s | s in S0 ::
      && s in now && now[s] == lists[s] + Repeat(s.EntryList(role, fleeTargets), Entries(s, evs))
      && s in tnow && trans0[s] <= tnow[s] && (Entries(s, evs) == 0 ==> tnow[s] == trans0[s])
  {
  }

  /** The activity PointAndShoot (FireActivity) or Heal (HealActivity) removes after `execute`. */
  predicate OneShot(k: StateKind, a: Activity) {
    (k == PointAndShoot && a.Fire?) || (k == Heal && a.HealActivity?)
  }

  /** The list left by the removal loop, resumed at iterator index `i`. */
  function Sweep(acts: seq<Activity>, i: nat, k: StateKind): seq<Activity>
    decreases |acts| - i
  {
    if i >= |acts| then acts
    else if OneShot(k, acts[i]) then Sweep(acts[..i] + acts[i + 1..], i + 1, k)
    else Sweep(acts, i + 1, k)
  }

  /** Running one more transition extends the fold by one step. */
  lemma {:induction false} FoldStep(s: State, ts: seq<Transition>, outcomes: seq<bool>, t: Transition, fired: bool)
    requires |outcomes| == |ts|
    ensures Resolve(s, ts + [t], outcomes + [fired]) == Next(Resolve(s, ts, outcomes), t, fired)
    ensures SwapEvents(s, ts + [t], outcomes + [fired]) == SwapEvents(s, ts, outcomes) + SwapOf(Resolve(s, ts, outcomes), t, fired)
    decreases |ts|
  {
    if |ts| == 0 {
      assert ts + [t] == [t] && outcomes + [fired] == [fired];
      assert [t][1..] == [] && [fired][1..] == [];
    } else {
      assert (ts + [t])[1..] == ts[1..] + [t];
      assert (outcomes + [fired])[1..] == outcomes[1..] + [fired];
      FoldStep(Next(s, ts[0], outcomes[0]), ts[1..], outcomes[1..], t, fired);
    }
  }
}
