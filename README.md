# space_pymunk agent behaviour engine, in Dafny

This project models the agent behaviour engine of the space_pymunk game, together with the small gameplay updates around it.

**The engine.** A `StateMachine` holds one live `State`. Each `State` owns an ordered list of activities and an ordered list of transitions. A `Transition` is a decision with a true target and a false target, and either target may be `None`. `update` runs every activity of the current state, then every transition of that state's own list. It keeps walking that original list even after a swap, so the last transition that swaps wins. The concrete states build their lists in `enter` by appending. They capture the agent's position and health at entry time.

**The gameplay code:**
- the Fighter's steering forces, weapon cooldown and force summation;
- the Player's experience and levels, screen wrap and firing;
- the bullets' lifespan countdown and per-class constants;
- the collision handlers;
- the swarm of bees and its peer wiring.

Modules, one file each:

| file | module | models |
|---|---|---|
| vectors.dfy | `Vectors` | 2D vectors over reals; `from_magnitude` and `limit` as given operations with their laws |
| sprites.dfy | `Sprites` | the arcade sprite and its physics body, sprite lists |
| decisions.dfy | `Decisions` | decisions.py |
| steering.dfy | `Steering` | the steering force of `seek`/`flee` (activities.py and fighter.py) |
| activities.dfy | `Activities` | activities.py |
| engine.dfy | `Engine` | transitions.py, states.py, state_machines.py |
| engine_facts.dfy | `EngineFacts` | properties of the transition loop, the one-shot removal and the entry lists |
| bullets.dfy | `Bullets` | bullets.py |
| fighter.dfy | `Fighters` | fighter.py |
| player.dfy | `Players` | player.py |
| hit_handlers.dfy | `HitHandlers` | hit_handlers.py |
| swarm.dfy | `Swarms` | swarm_of_bees.py |

**Overall approach:**
- Decisions and activities are datatypes.
- `State`, `StateMachine`, the sprites and the game objects are classes whose methods change their fields in place.
- Python subclassing of `arcade.Sprite` becomes composition: each game object holds one `Sprite`.
- The ghost set `states` of a machine holds every state it can reach. Two-way references are kept closed in it.
- The ghost `trace` records every exit, assignment and entry in order.

**Inputs of the model.** Code the model cannot see is passed in as parameters, gathered in an `Env`:
- pyglet's vector operations;
- the answers of TimeElapsedDecision and TakenDamageDecision, including the wall clock;
- the effects of HealActivity, AvoidObstaclesActivity, PointInDirectionOfTravelActivity and WaitForPull.

The random spawn offsets of the swarm and the screen height are explicit parameters.

**Behaviour of the code that the model keeps as written:**
- `enter` only appends; it never clears. Entering the same instance twice doubles both lists (`Engine.State.Enter`).
- WithinRangeDecision takes `(point, _range)` and is true below the range, with no inner bound.
- `seek` inside the slow radius asks for `-max_speed`, rather than a speed scaled down with the distance.
- PointTowardsTargetActivity and FireActivity do nothing. They are classes with no body.
- The one-shot removal is a `remove` inside a `for` loop over the same list. It skips the element after each removal, so two neighbouring one-shots leave the second (`EngineFacts.NeighbouringOneShotSurvives`).

**Behaviour the model repairs.** `force.limit(max_force)` in Seek and Flee (activities.py:64, 102; fighter.py:53, 81) discards its result, so as written the appended force is not clamped. `Steering.SeekForceAsWritten` and `Steering.FleeForceAsWritten` model that code, and the Findings table shows the input where it matters. The activities and the Fighter's `seek`/`flee` append the repaired force, `force = force.limit(max_force)`; the Left out section names each member that does.

**Calls that raise in Python, and how the model treats them:**
- states.py:78 passes `outer_limit=800` to a constructor that accepts `(point, _range)`, which raises `TypeError`. The model reads it as range 800.
- states.py:146 passes a target to PointTowardsTargetActivity, which defines no constructor, so this raises `TypeError` too. The model stores the target and does nothing with it.

## Model

| member | source | states |
|---|---|---|
| Engine.Transition.Execute | transitions.py:14-23 | The decision is evaluated once, on the attributes at the call. The state becomes the true target if the decision fired and the true target is set, otherwise the false target if set, otherwise it stays. The trace gains exactly exit of the old state, assignment and entry of the new one, or nothing. With no swap the sprite is untouched. On a swap the target's activities gain exactly its entry list and its transitions are extended by its entry edges. Every other state keeps both lists. |
| Engine.Transition.Enter | transitions.py:25-26 | `enter` of a transition changes nothing. |
| Engine.Transition.Exit | transitions.py:28-29 | `exit` of a transition changes nothing. |
| Engine.Swap | transitions.py:16-18 | Exit of the current state, then the assignment, then entry of the target, in that order. The agent's attributes are the target's entry effect applied after the old state's exit effect. The target's activities gain exactly its entry list (`EntryList`), and its old transitions are kept with its entry edges appended. |
| Engine.State.Execute | states.py:33-224 | Every activity in list order, then every transition of this state's own list in order, even after a swap. The resulting state and trace are the fold `Resolve`/`SwapEvents` over the recorded decisions, and the transitions list is unchanged. PointAndShoot then removes FireActivity and Heal removes HealActivity: the activities become `Sweep` of the old list, the in-place removal under Python's index-based iteration. Each swap sets the attributes to `SwapView`: the target's entry effect on its lists at that moment, after the old state's exit effect on its own (`SwapsApplied`). Every other state's activities are its old list plus one entry list per time the loop entered it. Its transitions are kept and only grow, and stay as they were if it was never entered. |
| Engine.State.RunTransitions | states.py:37-38 | The transition loop: the decisions replay in list order, the state and trace are the fold over them, each swap applies `SwapView` to the attributes (`SwapsApplied`), and every reachable state's lists grow as its entries say (`Grown`, `Kept`). This state's own lists are untouched. |
| Engine.State.SweepOneShots | states.py:179-181 | The removal loop leaves exactly `Sweep(old activities, 0, kind)`. |
| Engine.ExecuteAll | states.py:34-35 | Executing the activities in order leaves the attributes `RunAll` gives. The targets the activities read are not changed. |
| Engine.HookEach | states.py:41-42 | `enter` (or `exit`) called on each activity in order, as `HookAll`. |
| Engine.State.Exit | states.py:46-50 | `exit` calls `exit` on the activities in order and records the exit. IdleState's is the base no-op. |
| Engine.State.EnterBody | states.py:40-55 | A plain `State.enter` calls `enter` on its activities in order, and the transitions' `enter` does nothing. IdleState's `enter` zeroes the velocity and changes nothing else. |
| Engine.State.Enter | states.py:40-218 | `enter` records the entry. It changes the attributes by this kind's entry effect. It appends `EntryActivities` to the old activities and `EntryEdges` (computed from the attributes at entry) to the old transitions, each new transition pointing at a fresh state. |
| Engine.State.EnterLists | states.py:61-218 | The activities and transitions each list-building state appends, in source order, with the positions and health read at entry. SeekAndFleeState: Seek(target), PointInDirectionOfTravel, AvoidObstacles(rocks), one Flee per flee target; LowHealth(10) to FleeFromPlayer at (x+3000, y) and WithinRange(target, 800) to PointAndShoot. NavigateToPointState and FleeFromPlayer: Seek(point), PointInDirectionOfTravel, AvoidObstacles(rocks); WithinRange(point, 400) to a new SeekAndFleeState or Heal. PointAndShoot: Fire, PointTowardsTarget(target); TimeElapsed(1.8) to a new PointAndShoot, LowHealth(10) to FleeFromPlayer at (x+2000, y), TakenDamage(health) to NavigateToPoint at (x+1000, y). Heal: HealActivity; TimeElapsed(1.2) to a new Heal, TakenDamage(health) to NavigateToPoint at (x+1000, y), FullHealth to a new SeekAndFleeState. |
| Engine.State.AddActivities | states.py:61-190 | The `activities.append` calls of each list-building `enter` append exactly `EntryActivities` of its kind, in source order, to the old list. |
| Engine.State.RunActivities | states.py:34-35 | The activity loop sets the attributes to `ActivityPhase` and leaves every state's lists alone. |
| Engine.State.AppendFlees | states.py:66-67 | One Flee with the default range per flee target, in order, appended to the old list. |
| Engine.State.AddEdges | states.py:69-82 | The transitions appended realise the given edges in order, the old ones are kept, and every new target is a fresh state added to the machine. |
| Engine.State.AddEdge | states.py:69-75 | Appends `Transition(decision, next, None)`; the machine's reachable states gain `next` and stay closed. |
| Engine.State.constructor | states.py:29-31 | A new state starts with both lists empty. |
| Engine.State.Waiting | state_machines.py:49 | `WaitForPull(player_sprite)`: a WaitForPull on the player with both lists empty. |
| Engine.Label | states.py:84-85 | A state has a label of its own exactly when it is one of the five kinds a FighterStateMachine moves through. |
| Engine.State.At | states.py:88-90 | NavigateToPointState/FleeFromPlayer build a fresh plain sprite at the given point. |
| Engine.StateMachine.constructor | state_machines.py:17-19 | A new machine holds a fresh, empty plain `State`. |
| Engine.StateMachine.ForFighter | state_machines.py:31-37 | Stores the target, bullet list, physics engine and rocks as given. The flee targets start empty. |
| Engine.StateMachine.ForBee | state_machines.py:44-49 | The state is a fresh WaitForPull on the player and `other_bees` starts empty. |
| Engine.StateMachine.Update | state_machines.py:21-22 | One `execute` of the current state, with the resulting state, trace and attributes of `State.Execute`. Each swap applies `SwapView` to the attributes. The executed state keeps its transitions, and its activities are swept. Every other reachable state's activities gain one entry list per entry, and its transitions only grow. |
| Engine.StateMachine.Start | state_machines.py:27-28 | `start` changes nothing. |
| Engine.StateMachine.Awake | state_machines.py:24-52 | The base `awake` changes nothing. FighterStateMachine replaces the state with a fresh SeekAndFleeState and enters it once: the lists become the SeekAndFlee entry lists and the trace gains assignment and entry. BeeStateMachine only enters its current state. |
| EngineFacts.ResolveIsLastSwap | states.py:37-38 | After the transition loop the state is the target of the last transition that swapped, or the starting state when none did (last writer wins). |
| EngineFacts.NoSwapKeepsState | states.py:37-38 | When no transition swaps, the state stays and no exit or enter is called. |
| EngineFacts.SwapEventsChain | transitions.py:16-23 | The loop's trace is a chain of complete swaps, three events each. Every swap exits the state the previous swap entered, so a second swap exits the first target and not the original state. |
| EngineFacts.SweepIsSurvivors | states.py:179-181 | The in-place removal equals a front-to-back reading in which the element after each removed one is kept unexamined. |
| EngineFacts.SpacedSweepRemovesAllOneShots | states.py:222-224 | When no two one-shots are neighbours, every one-shot is removed and every other activity is kept, in order. |
| EngineFacts.NeighbouringOneShotSurvives | states.py:222-224 | With two neighbouring one-shots the second one survives the loop. |
| EngineFacts.EnteredOneShotsRunOnce | states.py:177-181 | After its first `execute`, a freshly entered PointAndShoot keeps exactly [PointTowardsTarget(target)] and a freshly entered Heal keeps nothing. |
| EngineFacts.FleeAllShape | states.py:66-67 | One Flee per flee target, same order, each with range 200. |
| EngineFacts.SeekAndFleeEntryShape | states.py:61-67 | SeekAndFleeState's activities are Seek(target), PointInDirectionOfTravel, AvoidObstacles(rocks), then Flee of each flee target in order. |
| EngineFacts.EmptyStateIsInert | state_machines.py:17-22 | An `update` before `awake` on the empty `State()` runs nothing, takes no decision, keeps the state and records nothing. |
| EngineFacts.LabelledKinds | states.py:84-85 | The five labels of states.py's `__str__` methods are pairwise distinct, so a label names its kind. |
| Decisions.Decide | decisions.py:12-49 | The base decision is false. LowHealth is true iff health < threshold, and FullHealth iff health >= max_health. A true WithinRange has a positive range and a squared distance below its square. A false OutOfRange has a non-negative range and a squared distance at most its square. TimeElapsed and TakenDamage answer as the given oracle does. |
| Decisions.HealthDecisions | decisions.py:12-29 | The base decision is always false. LowHealth is true iff health < threshold, so equality gives false. FullHealth is true iff health >= max_health. |
| Decisions.WithinRangeIsStrictDistance | decisions.py:34-39 | WithinRange is true iff the Euclidean distance is strictly below the range. |
| Decisions.OutOfRangeIsStrictDistance | decisions.py:44-49 | OutOfRange is true iff the Euclidean distance is strictly above the range. |
| Decisions.RangeDecisionsExclusive | decisions.py:38-49 | At exactly the range both decisions are false, and for one target and range they are never both true. |
| Activities.Activity.Execute | activities.py:44-105 | Seek appends the steering force. Flee returns early beyond its range and otherwise appends the flee force. Only the agent's sprite changes. |
| Activities.Step | activities.py:13-105 | A shown activity only appends forces, at most one, and changes nothing else. Seek appends exactly one. BaseActivity, PointTowardsTarget and Fire change nothing. The activities whose bodies are not shown act as the given effect. |
| Activities.Activity.RunHook | activities.py:17-24 | `enter`/`exit` of a shown activity do nothing. |
| Activities.SeekAppendsOneBoundedForce | activities.py:44-67 | Seek appends exactly one force and changes nothing else. That force is no longer than `max_force`. |
| Activities.FleeAppendsWithinRange | activities.py:84-105 | Flee appends nothing when the distance is strictly above its range. Otherwise it appends exactly one force, no longer than `max_force`, and changes nothing else. |
| Activities.InertActivities | activities.py:107-111 | BaseActivity, PointTowardsTargetActivity and FireActivity change nothing on `execute`, and no shown activity does anything on `enter` or `exit`. |
| Activities.ShownStepAppendsBoundedForce | activities.py:13-105 | Any shown activity appends at most one force, bounded by `max_force`, and changes nothing else. |
| Activities.RunAllOnlyAppendsBoundedForces | states.py:34-35 | Running a list of shown activities only appends forces, at most one per activity, each within `max_force`. |
| Activities.HookAllOfShownActivities | states.py:41-42 | With only shown activities, `enter`/`exit` over the list change nothing. |
| Steering.SeekSpeedInsideSlowRadius | activities.py:52-56 | The desired speed is `-max_speed` exactly when arriving within distance 400, else `max_speed`. |
| Steering.SeekDesiredDirection | activities.py:46-59 | The desired velocity has length `max_speed` and lies on the line to the target: towards it, or away when arriving inside the slow radius. |
| Steering.FleeDesiredDirection | activities.py:87-96 | Flee's desired velocity has length `max_speed` and points directly away from the target. |
| Steering.SeekForceBounded | activities.py:63-64 | The limited seek force is no longer than `max_force`, and one already within it is unchanged. |
| Steering.FleeForceBounded | activities.py:100-102 | The limited flee force is no longer than `max_force`, and one already within it is unchanged. |
| Steering.SeekForceAsWrittenExceedsMaxForce | activities.py:64 | As written, an agent at rest seeking a far target appends a force of length `max_speed`, above any smaller `max_force`. |
| Steering.FleeForceAsWrittenExceedsMaxForce | activities.py:102 | As written, Flee does the same. |
| Bullets.Bullet.constructor | bullets.py:5-16 | Lifespan 200, the given damage, collision type "bullet", maximum velocity 1500, moment of inertia 50, mass 1. |
| Bullets.Bullet.Of | bullets.py:31-53 | RedLaser: scale 0.5, mass 0.2. BlueLaser: scale 0.5, collision type "player_bullet", mass 0.5. Saw: scale 0.3, maximum velocity 500, mass 5. All have damage 1 and lifespan 200. |
| Bullets.Bullet.OnCollide | bullets.py:18-19 | `on_collide` changes nothing. |
| Bullets.Bullet.Update | bullets.py:25-29 | One `update` is one `Tick`: the lifespan drops by exactly one and the bullet is killed iff it reaches zero or below. |
| Bullets.TicksCountDown | bullets.py:25-29 | After n updates the lifespan is n lower, and the bullet is killed iff it already was or the lifespan has reached zero or below. |
| Bullets.FreshBulletLivesTwoHundredUpdates | bullets.py:8-29 | A fresh bullet survives 199 updates and is killed by the 200th. |
| Bullets.ConstructBouncy | bullets.py:56-60 | Constructing a Bouncy always raises: NameError on the unbound `filename`, otherwise NotImplementedError. |
| Fighters.Fighter.constructor | fighter.py:15-27 | Position as given, `max_speed` 500, `max_force` 50, no forces, health and max health equal to the argument (20 by default), cooldown 0, weapon RedLaser, target (0, 0). |
| Fighters.Fighter.Seek | fighter.py:29-56 | Appends exactly the steering force towards the target, with the desired speed negated inside radius 400 when arriving. |
| Fighters.Fighter.Flee | fighter.py:59-84 | Beyond the range the forces are unchanged. Otherwise exactly the flee force is appended. |
| Fighters.Fighter.Fire | fighter.py:87-92 | Exactly one fresh bullet of the weapon's class at the ship's position and angle, and the cooldown becomes 0. |
| Fighters.Fighter.Update | fighter.py:125-126 | The cooldown grows by exactly 1. |
| Fighters.Fighter.RotateRight | fighter.py:119-120 | Angular velocity + 3. |
| Fighters.Fighter.RotateLeft | fighter.py:122-123 | Angular velocity − 3. |
| Fighters.Fighter.NetForce | fighter.py:109-111 | The summation loop yields the sum of every pending force. |
| Fighters.Fighter.PymunkMovedAsWritten | fighter.py:106-116 | As written, the applied force is the whole sum; the pending forces are kept. |
| Fighters.Fighter.PymunkMoved | fighter.py:106-116 | With the limit kept, the applied force is the limited sum. It is no longer than `max_force`, equals the sum when that is within the bound, and the pending forces are kept. |
| Fighters.NetForceAsWrittenExceedsMaxForce | fighter.py:109-113 | Two pending forces, each exactly `max_force` long and pointing the same way, sum to twice that length. |
| Players.Gain | player.py:54-58 | The level is unchanged iff the new experience is below the threshold, and otherwise it rises by exactly one. Experience plus the threshold for each level gained is conserved. Non-negative inputs keep experience non-negative. |
| Players.OneLevelPerGain | player.py:54-58 | A gain of twice the threshold or more still buys one level only. |
| Players.WrapY | player.py:38-41 | y below −height becomes HEIGHT + height. y above HEIGHT + height becomes −height. Otherwise y is unchanged. At most one wrap happens, and the result stays within [−height, HEIGHT + height]. |
| Players.Player.constructor | player.py:9-29 | Experience 0, next level at 100, level 1, weapon BlueLaser, position as given. |
| Players.Player.GainExp | player.py:54-58 | The counters change as `Gain` says and `next_level_at` is untouched. |
| Players.Player.PymunkMoved | player.py:38-41 | Only y changes, to `WrapY` of the old y. |
| Players.Player.RotateRight | player.py:43-44 | Angular velocity + 0.6. |
| Players.Player.RotateLeft | player.py:46-47 | Angular velocity − 0.6. |
| Players.Player.Fire | player.py:49-52 | Exactly one fresh bullet of the weapon's class at the player's position, with angle + 90. |
| HitHandlers.EnemyHit | hit_handlers.py:5-13 | The enemy's health drops by exactly 1 whatever the damage. The bullet is killed. The enemy is killed iff its new health is at or below 0. |
| HitHandlers.DefaultFighterTakesTwentyHits | hit_handlers.py:10-13 | A Fighter with the default health 20 survives 19 hits and is killed by the 20th. |
| HitHandlers.NoCollision | hit_handlers.py:18-19 | `no_collision` changes neither sprite. |
| HitHandlers.KillBullet | hit_handlers.py:15-16 | Only the bullet is killed. |
| Swarms.Swarm.constructor | swarm_of_bees.py:13-35 | Exactly `size` distinct fresh bees, each referencing the swarm and spawned at its offset within ±50. Each has an awakened BeeStateMachine. Each bee's `other_bees` is `Others` of the swarm. The scene's enemies gain the bees' sprites in swarm order. |
| Swarms.Swarm.SpawnBees | swarm_of_bees.py:16-27 | One awakened bee per offset pair, in order, each with no peers yet. |
| Swarms.Swarm.SpawnBee | swarm_of_bees.py:17-27 | The bee has a BeeStateMachine on the player that has been entered once, and its sprite has WaitForPull's entry effect on its spawn attributes. |
| Swarms.WireBees | swarm_of_bees.py:30-33 | After the nested loop every bee's `other_bees` is `Others` of the swarm, and the bees stay as awakened. |
| Swarms.WireOne | swarm_of_bees.py:31-33 | One pass of the outer loop wires one bee and leaves the others as they were. |
| Swarms.Bee.AddOthers | swarm_of_bees.py:31-33 | The inner loop appends every bee of the list that is not this one, in order. |
| Swarms.OthersMembers | swarm_of_bees.py:31-33 | `Others(bs, b)` holds exactly the bees of `bs` other than `b`. |
| Swarms.OthersCutsOne | swarm_of_bees.py:30-33 | For distinct bees, bee i's others are the swarm with bee i cut out: every other bee exactly once, in swarm order, never itself. |
| Swarms.AddToScene | swarm_of_bees.py:34-35 | The enemies list gains the bees' sprites in swarm order. |
| Swarms.Swarm.Kill | swarm_of_bees.py:37-39 | Every bee of the swarm is killed, and nothing else about its sprite changes. |
| Swarms.Bee.constructor | swarm_of_bees.py:43-52 | A new bee at its point, referencing its swarm, with empty `other_bees`. |
| Swarms.Bee.RotateRight | swarm_of_bees.py:54-55 | Angular velocity + 3. |
| Swarms.Bee.RotateLeft | swarm_of_bees.py:57-58 | Angular velocity − 3. |

## Left out

- Floating point and square roots. Coordinates are reals. A distance is compared through its square; a lemma that speaks of the distance takes it as a parameter `dist` with `dist * dist` equal to the squared distance.
- `Vec2.from_magnitude` and `Vec2.limit` are parameters. Their only contract is the laws in `Vectors.Lawful`: length and direction for `from_magnitude`; the bound, and identity on short vectors, for `limit`. The properties that need them assume `Lawful`.
- Damping is not modelled: the velocity `*= 0.99` of states.py:182 and states.py:225, and the angular velocity `*= 0.7` and `*= 0.95` of fighter.py:108 and player.py:37.
- Not modelled, because they are trigonometry and physics engine calls:
  - the force application and the heading written back in fighter.py:114-116;
  - the trigonometric bullet velocities `change_x`/`change_y`;
  - `angle_radians`;
  - `pointing_at_target` (fighter.py:94-104).
- Physics registration is not modelled, since it belongs to the physics engine: `get_physics_body`, `add_sprite` (swarm_of_bees.py:20-26) and `set_velocity`. The model has no physics body that is still `None` before the first `pymunk_moved`. The calls in the source that would fail on it are modelled as succeeding.
- `Sprite.kill()` is a flag. Removal from every sprite list is not modelled.
- The classes whose bodies are not part of this model are opaque inputs in `Env`:
  - HealActivity, AvoidObstaclesActivity, PointInDirectionOfTravelActivity;
  - TimeElapsedDecision, with its wall clock, and TakenDamageDecision;
  - WaitForPull;
  - Enemy.
- `Enemy`, the base class of Bee, is not part of this model. A Bee is built on a plain sprite, and its `level` (and the swarm's) is dropped. The Bee's scale and image are not modelled.
- PatrolState (states.py:110-115) stores fields and has no behaviour.
- The Player's joystick, `player_num` and `colour`, and the constants module are not modelled. `HEIGHT` is a parameter, and the ship's height is a constructor argument.
- `filename`, the texture, scale and `movement_behaviour` of sprite construction are not modelled, except the bullet scale the subclasses pass.
- game_view.py (window, input, camera, spawning, collision-handler registration) and utils.py are not part of this model.
- Engine.StateMachine.ForBee: the BeeStateMachine's `other_bees` list is kept as a field and stays empty, as nothing in the core writes it.
- Swarms.Swarm.constructor: the source appends each bee to `self.bees` inside the spawn loop. The model builds the list in the loop and assigns it afterwards. Nothing in the loop reads `self.bees`, so the final list is the same.
- Swarms.Swarm.constructor: the offsets stand for `randint(-50, 50)`. The requirement that they lie within ±50 is the range randint promises, not a demand of the constructor.
- HitHandlers.EnemyHit: requires the enemy and the bullet to be different sprites. The physics engine only calls the handler for a pair of distinct bodies.
- Steering.SeekDesiredDirection: requires the agent not to stand on its target. `from_magnitude` of the zero vector has no law here (the same holds for Steering.FleeDesiredDirection).
- Activities.Activity.Execute: Seek and Flee append the repaired force `force = force.limit(max_force)`, not the unclamped force activities.py:64 and 102 append. The as-written force is `Steering.SeekForceAsWritten`/`Steering.FleeForceAsWritten` (see Findings).
- Activities.Step: the same repair as Activities.Activity.Execute.
- Fighters.Fighter.Seek: appends the repaired force; fighter.py:53 discards the result of `limit` and appends the unclamped one.
- Fighters.Fighter.Flee: the same repair, for fighter.py:81.
- Activities.SeekAppendsOneBoundedForce: the `max_force` bound holds for the repaired Seek only. As written the force can exceed it (`Steering.SeekForceAsWrittenExceedsMaxForce`).
- Activities.FleeAppendsWithinRange: the `max_force` bound holds for the repaired Flee only (`Steering.FleeForceAsWrittenExceedsMaxForce`).
- Activities.ShownStepAppendsBoundedForce: the bound holds for the repaired Seek and Flee only.
- Activities.RunAllOnlyAppendsBoundedForces: the bound holds for the repaired Seek and Flee only.
- Engine.State.Waiting: WaitForPull's class is not part of this model. It is modelled as a state that never owns activities or transitions, so a bee never leaves it. Its `enter`, `execute` and `exit` are the given effects in `Env`.
- Engine.StateMachine.ForBee: a consequence of the above, so a BeeStateMachine stays in its WaitForPull.
- Sprites.Attrs: `health` and `max_health` are integers. The shown code only sets them from integers and subtracts 1, so fractional health is not modelled.
- Engine.EntryEdges: states.py:78 raises `TypeError` (an `outer_limit` keyword the constructor does not take). The model builds a WithinRange of range 800 instead of raising.
- Engine.EntryActivities: states.py:146 raises `TypeError` (PointTowardsTargetActivity takes no target). The model builds the activity instead of raising.
- Swarms.WireOne: its frame is the `other_bees` of every bee of the swarm, though only bee `i` changes. Its ensures pin the others' lists.

## Findings

| source | as written | input that shows it | evidently intended | confidence | as-written member | corrected member |
|---|---|---|---|---|---|---|
| activities.py:64 | `force.limit(max_force)` is called as a statement; pyglet's `limit` returns a new vector, so Seek appends the unlimited force | agent at rest at (0, 0), target (1000, 0), `arrive` false, `max_speed` 500, `max_force` 50: the appended force has length 500 | the result is kept: `force = force.limit(max_force)` | not executed | Steering.SeekForceAsWrittenExceedsMaxForce | Steering.SeekForceBounded |
| activities.py:102 | the same in Flee | agent at rest at (0, 0), target (100, 0), range 200, `max_speed` 500, `max_force` 50: the appended force has length 500 | `force = force.limit(max_force)` | not executed | Steering.FleeForceAsWrittenExceedsMaxForce | Steering.FleeForceBounded |
| fighter.py:53 | the same in `Fighter.seek` | a new Fighter at (0, 0) at rest seeking (1000, 0) with `arrive` false: a force of length 500 against `max_force` 50 | `force = force.limit(self.max_force)` | not executed | Steering.SeekForceAsWrittenExceedsMaxForce | Fighters.Fighter.Seek |
| fighter.py:81 | the same in `Fighter.flee` | a new Fighter at (0, 0) at rest fleeing (100, 0): a force of length 500 | `force = force.limit(self.max_force)` | not executed | Steering.FleeForceAsWrittenExceedsMaxForce | Fighters.Fighter.Flee |
| fighter.py:113 | `net.limit(self.max_force)` is discarded, so the whole sum of the pending forces is applied | two pending forces (50, 0) with `max_force` 50: the applied force is (100, 0) | `net = net.limit(self.max_force)` | not executed | Fighters.NetForceAsWrittenExceedsMaxForce | Fighters.Fighter.PymunkMoved |
