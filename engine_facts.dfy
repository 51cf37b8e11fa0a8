/** Properties of the behaviour engine's pure parts: how a run of the transition loop
    resolves the machine's state and what it records, what the one-shot removal leaves,
    and the shape of the lists `enter` builds. */
module EngineFacts {
  import opened Sprites
  import opened Activities
  import opened Engine

  /** Reference for `Resolve`: the target of the last transition that swapped, or the
      starting state when none did. */
  function LastSwap(s: State, ts: seq<Transition>, outcomes: seq<bool>): State
    requires |outcomes| == |ts|
    decreases |ts|
  {
    if |ts| == 0 then s
    else if ts[|ts| - 1].Choice(outcomes[|ts| - 1]) != null then ts[|ts| - 1].Choice(outcomes[|ts| - 1])
    else LastSwap(s, ts[..|ts| - 1], outcomes[..|ts| - 1])
  }

  /** Every transition of the loop may replace the state, so the last one that swaps wins. */
  lemma {:induction false} ResolveIsLastSwap(s: State, ts: seq<Transition>, outcomes: seq<bool>)
    requires |outcomes| == |ts|
    ensures Resolve(s, ts, outcomes) == LastSwap(s, ts, outcomes)
    decreases |ts|
  {
    if |ts| > 0 {
      var n := |ts| - 1;
      assert ts == ts[..n] + [ts[n]] && outcomes == outcomes[..n] + [outcomes[n]];
      FoldStep(s, ts[..n], outcomes[..n], ts[n], outcomes[n]);
      ResolveIsLastSwap(s, ts[..n], outcomes[..n]);
    }
  }

  /** When no transition swaps, the state stays and nothing is recorded. */
  lemma {:induction false} NoSwapKeepsState(s: State, ts: seq<Transition>, outcomes: seq<bool>)
    requires |outcomes| == |ts|
    requires forall k | 0 <= k < |ts| :: ts[k].Choice(outcomes[k]) == null
    ensures Resolve(s, ts, outcomes) == s && SwapEvents(s, ts, outcomes) == []
    decreases |ts|
  {
    if |ts| > 0 {
      assert ts[0].Choice(outcomes[0]) == null;
      NoSwapKeepsState(s, ts[1..], outcomes[1..]);
    }
  }

  /** `es` is a run of swaps from `s` to `e`: each swap exits the state the previous one
      entered, assigns a state and enters that same state. */
  predicate Chain(s: State, es: seq<Event>, e: State)
    decreases |es|
  {
    if |es| == 0 then s == e
    else
      && |es| >= 3 && es[0] == Exited(s) && es[1].Assigned?
      && es[2] == Entered(es[1].s) && Chain(es[1].s, es[3..], e)
  }

  /** The number of transitions that swap. */
  function Swaps(ts: seq<Transition>, outcomes: seq<bool>): nat
    requires |outcomes| == |ts|
    decreases |ts|
  {
    if |ts| == 0 then 0 else (if ts[0].Choice(outcomes[0]) == null then 0 else 1) + Swaps(ts[1..], outcomes[1..])
  }

  /** The trace of the transition loop is a chain of complete swaps, three events per
      swapping transition, that ends in the state the loop resolves to. */
  lemma {:induction false} SwapEventsChain(s: State, ts: seq<Transition>, outcomes: seq<bool>)
    requires |outcomes| == |ts|
    ensures Chain(s, SwapEvents(s, ts, outcomes), Resolve(s, ts, outcomes))
    ensures |SwapEvents(s, ts, outcomes)| == 3 * Swaps(ts, outcomes)
    decreases |ts|
  {
    if |ts| > 0 {
      var n := Next(s, ts[0], outcomes[0]);
      SwapEventsChain(n, ts[1..], outcomes[1..]);
      var rest := SwapEvents(n, ts[1..], outcomes[1..]);
      if ts[0].Choice(outcomes[0]) != null {
        var es := SwapOf(s, ts[0], outcomes[0]) + rest;
        assert es[3..] == rest;
      } else {
        assert SwapEvents(s, ts, outcomes) == rest;
      }
    }
  }

  /** Reference for the removal loop, reading the list from the front: a one-shot activity
      is dropped unless it comes right after a dropped one, which Python's list iterator
      skips (`skip`). */
  function Survivors(acts: seq<Activity>, skip: bool, k: StateKind): seq<Activity>
    decreases |acts|
  {
    if |acts| == 0 then []
    else if skip then [acts[0]] + Survivors(acts[1..], false, k)
    else if OneShot(k, acts[0]) then Survivors(acts[1..], true, k)
    else [acts[0]] + Survivors(acts[1..], false, k)
  }

  lemma {:induction false} SweepFrom(p: seq<Activity>, r: seq<Activity>, skip: bool, k: StateKind)
    requires skip ==> |r| > 0
    ensures Sweep(p + r, |p| + (if skip then 1 else 0), k) == p + Survivors(r, skip, k)
    decreases |r|, !skip
  {
    if |r| == 0 {
      assert p + r == p;
    } else if skip {
      assert p + r == (p + [r[0]]) + r[1..];
      SweepFrom(p + [r[0]], r[1..], false, k);
      assert (p + [r[0]]) + Survivors(r[1..], false, k) == p + ([r[0]] + Survivors(r[1..], false, k));
    } else if OneShot(k, r[0]) {
      assert (p + r)[|p|] == r[0];
      assert (p + r)[..|p|] + (p + r)[|p| + 1..] == p + r[1..];
      if |r| == 1 {
        assert p + r[1..] == p;
      } else {
        SweepFrom(p, r[1..], true, k);
      }
    } else {
      assert (p + r)[|p|] == r[0];
      assert p + r == (p + [r[0]]) + r[1..];
      SweepFrom(p + [r[0]], r[1..], false, k);
      assert (p + [r[0]]) + Survivors(r[1..], false, k) == p + ([r[0]] + Survivors(r[1..], false, k));
    }
  }

  /** The in-place removal loop leaves exactly the survivors of a front-to-back reading. */
  lemma SweepIsSurvivors(acts: seq<Activity>, k: StateKind)
    ensures Sweep(acts, 0, k) == Survivors(acts, false, k)
  {
    SweepFrom([], acts, false, k);
    assert [] + acts == acts;
  }

  /** The list without any one-shot activity of kind `k`. */
  function WithoutOneShots(acts: seq<Activity>, k: StateKind): seq<Activity>
    decreases |acts|
  {
    if |acts| == 0 then []
    else if OneShot(k, acts[0]) then WithoutOneShots(acts[1..], k)
    else [acts[0]] + WithoutOneShots(acts[1..], k)
  }

  /** No two one-shot activities are neighbours. */
  predicate Spaced(acts: seq<Activity>, k: StateKind) {
    forall i | 0 <= i < |acts| - 1 :: !(OneShot(k, acts[i]) && OneShot(k, acts[i + 1]))
  }

  lemma {:induction false} SpacedSurvivors(acts: seq<Activity>, skip: bool, k: StateKind)
    requires Spaced(acts, k)
    requires skip && |acts| > 0 ==> !OneShot(k, acts[0])
    ensures Survivors(acts, skip, k) == WithoutOneShots(acts, k)
    decreases |acts|
  {
    if |acts| > 0 {
      assert Spaced(acts[1..], k) by {
        forall i | 0 <= i < |acts[1..]| - 1 ensures !(OneShot(k, acts[1..][i]) && OneShot(k, acts[1..][i + 1])) {
          assert acts[1..][i] == acts[i + 1] && acts[1..][i + 1] == acts[i + 2];
        }
      }
      if !skip && OneShot(k, acts[0]) && |acts| > 1 {
        assert !(OneShot(k, acts[0]) && OneShot(k, acts[1]));
      }
      SpacedSurvivors(acts[1..], !skip && OneShot(k, acts[0]), k);
    }
  }

  /** Without neighbouring one-shots, the removal loop removes every one of them and keeps
      every other activity in order. */
  lemma SpacedSweepRemovesAllOneShots(acts: seq<Activity>, k: StateKind)
    requires Spaced(acts, k)
    ensures Sweep(acts, 0, k) == WithoutOneShots(acts, k)
  {
    SweepIsSurvivors(acts, k);
    SpacedSurvivors(acts, false, k);
  }

  /** With two neighbouring one-shots the second survives: a Heal state holding two
      HealActivity objects keeps one after `execute`. */
  lemma NeighbouringOneShotSurvives(a: Activity, b: Activity, k: StateKind)
    requires OneShot(k, a) && OneShot(k, b)
    ensures Sweep([a, b], 0, k) == [b]
  {
    SweepIsSurvivors([a, b], k);
    assert [a, b][1..] == [b] && [b][1..] == [];
  }

  /** After its first `execute`, a freshly entered PointAndShoot state keeps only its
      PointTowardsTarget activity and a freshly entered Heal state keeps nothing. */
  lemma EnteredOneShotsRunOnce(role: Role, fleeTargets: seq<Sprite>)
    requires role.Fighter?
    ensures Sweep(EntryActivities(PointAndShoot, null, role, fleeTargets), 0, PointAndShoot) == [PointTowardsTarget(role.target)]
    ensures Sweep(EntryActivities(Heal, null, role, fleeTargets), 0, Heal) == []
  {
    var ps := [Fire, PointTowardsTarget(role.target)];
    SweepIsSurvivors(ps, PointAndShoot);
    assert ps[1..] == [PointTowardsTarget(role.target)] && ps[1..][1..] == [];
    SweepIsSurvivors([HealActivity], Heal);
    assert [HealActivity][1..] == [];
  }

  /** One Flee activity per flee target, in the same order, each with the default range. */
  lemma {:induction false} FleeAllShape(targets: seq<Sprite>)
    ensures |FleeAll(targets)| == |targets|
    ensures forall i | 0 <= i < |targets| :: FleeAll(targets)[i] == Flee(targets[i], 200)
    decreases |targets|
  {
    if |targets| > 0 {
      var n := |targets| - 1;
      FleeAllShape(targets[..n]);
      forall i | 0 <= i < |targets| ensures FleeAll(targets)[i] == Flee(targets[i], 200) {
        if i < n {
          assert FleeAll(targets)[i] == FleeAll(targets[..n])[i];
          assert targets[..n][i] == targets[i];
        }
      }
    }
  }

  /** SeekAndFleeState's `enter` seeks the player, points along its travel, avoids the
      rocks, and then flees each flee target in order. */
  lemma SeekAndFleeEntryShape(role: Role, fleeTargets: seq<Sprite>)
    requires role.Fighter?
    ensures var e := EntryActivities(SeekAndFlee, null, role, fleeTargets);
      && |e| == 3 + |fleeTargets|
      && e[0] == Seek(role.target, true) && e[1] == PointInDirectionOfTravel && e[2] == AvoidObstacles(role.rocks)
      && forall i | 0 <= i < |fleeTargets| :: e[3 + i] == Flee(fleeTargets[i], 200)
  {
    FleeAllShape(fleeTargets);
  }

  /** The empty `State()` a new machine holds does nothing on `update` before `awake`: the
      activity phase leaves the agent as it was, no decision is taken, the state stays and
      nothing is recorded. */
  lemma EmptyStateIsInert(s: State, self: Sprite, v: Attrs, env: Env, outcomes: seq<bool>, views: seq<Attrs>)
    requires s.kind == Plain && s.activities == [] && s.transitions == []
    ensures s.ActivityPhase(self, v, env) == v
    ensures Replayed(s.transitions, outcomes, views, self, env.oracle) ==>
      && outcomes == [] && |views| == 1
      && Resolve(s, s.transitions, outcomes) == s && SwapEvents(s, s.transitions, outcomes) == []
  {
  }

  /** The five labels are distinct, so a label names its kind. */
  lemma LabelledKinds(k: StateKind, k': StateKind)
    requires Label(k).Some? && Label(k) == Label(k')
    ensures k == k'
  {
  }
}
