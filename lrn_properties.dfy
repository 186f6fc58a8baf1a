/** Properties of the layer that relate several calls: the build-once
    invariant, repeated forward calls, and the plan going stale after a
    later reshape. */
module LrnProperties {
  import opened LrnTypes
  import opened LrnSpec

  /** How many plan builds a log records. */
  function BuildCount(log: seq<Event>): (n: nat)
  {
    if log == [] then 0
    else (if log[0] == BuildPlan then 1 else 0) + BuildCount(log[1..])
  }

  /** `n` copies of a sequence of events, one after the other. */
  function Repeat(c: seq<Event>, n: nat): seq<Event>
  {
    if n == 0 then [] else c + Repeat(c, n - 1)
  }

  /** The layer's invariant: the counter says whether there is a plan, and the
      log records exactly as many builds as the counter, which is at most one. */
  ghost predicate Inv(s: LayerState)
  {
    s.builds == (if s.plan.Some? then 1 else 0) && BuildCount(s.log) == s.builds
  }

  lemma {:induction false} BuildCountAppend(a: seq<Event>, b: seq<Event>)
    ensures BuildCount(a + b) == BuildCount(a) + BuildCount(b)
  {
    if a == [] {
      assert a + b == b;
    } else {
      assert (a + b)[0] == a[0];
      assert (a + b)[1..] == a[1..] + b;
      BuildCountAppend(a[1..], b);
    }
  }

  lemma CycleBuildsNothing()
    ensures BuildCount(Cycle) == 0
  {
  }

  lemma InitialInv()
    ensures Inv(Initial)
  {
  }

  lemma SetUpPreservesInv(s: LayerState, param: LrnParam)
    requires Inv(s)
    ensures Inv(SetUpSpec(s, param).state)
  {
  }

  lemma ReshapePreservesInv(s: LayerState, param: LrnParam, bottom: Tensor, top: Tensor)
    requires Inv(s)
    ensures Inv(ReshapeSpec(s, param, bottom, top).state)
  {
  }

  /** Building the plan on a layer that has none keeps the invariant,
      whether the build succeeds or not. */
  lemma InitPreservesInv(cfg: Config, s: LayerState, bottom: Tensor)
    requires Inv(s) && s.plan.None?
    ensures Inv(InitSpec(cfg, s, bottom).state)
  {
    var r := InitSpec(cfg, s, bottom);
    if r.status.Success? {
      BuildCountAppend(s.log, [BuildPlan]);
      assert BuildCount([BuildPlan]) == 1 by {
        assert [BuildPlan][1..] == [];
      }
    }
  }

  /** A forward call keeps the invariant: it logs a build exactly when it
      builds the plan, and it builds one only when there was none. */
  lemma ForwardPreservesInv(s: LayerState, cfg: Config, bottom: Tensor, top: Tensor)
    requires Inv(s)
    ensures Inv(ForwardSpec(s, cfg, bottom, top).state)
  {
    var r := ForwardSpec(s, cfg, bottom, top);
    CycleBuildsNothing();
    if r.status.Success? {
      if s.plan.Some? {
        BuildCountAppend(s.log, Cycle);
      } else {
        BuildCountAppend(s.log, [BuildPlan]);
        BuildCountAppend(s.log + [BuildPlan], Cycle);
        assert BuildCount([BuildPlan]) == 1 by {
          assert [BuildPlan][1..] == [];
        }
      }
    }
  }

  /** Consecutive forward calls, one per bottom, stopping at the first that fails. */
  function RunForwards(s: LayerState, cfg: Config, bottoms: seq<Tensor>, top: Tensor): (r: Outcome)
    decreases |bottoms|
  {
    if bottoms == [] then Outcome(s, top, Success)
    else
      var r := ForwardSpec(s, cfg, bottoms[0], top);
      if r.status.Failure? then r else RunForwards(r.state, cfg, bottoms[1..], r.top)
  }

  /** Any number (at least one) of consecutive forward calls builds the plan
      exactly once, from the first bottom, and never again, whatever the later
      bottoms carry; every call logs read-sync, write-sync, submit. */
  lemma {:induction false} ForwardsBuildOnce(s: LayerState, cfg: Config, bottoms: seq<Tensor>,
                                             top: Tensor)
    requires Inv(s) && |bottoms| > 0
    ensures var r := RunForwards(s, cfg, bottoms, top);
      && Inv(r.state)
      && (r.status.Success? <==> s.plan.Some? || InitPlan(cfg, s, bottoms[0]).Ok?)
      && (r.status.Success? ==> r.state.builds == 1 && r.state.plan.Some?)
      && (s.plan.Some? ==> r.state.plan == s.plan)
      && (s.plan.None? && r.status.Success? ==>
            r.state.plan == Some(InitPlan(cfg, s, bottoms[0]).value))
      && (r.status.Success? ==>
            r.state.log == s.log + (if s.plan.None? then [BuildPlan] else []) +
                           Repeat(Cycle, |bottoms|))
      && (r.status.Success? ==> r.top.prv == OutputTag(r.state.plan.value))
      && r.top.shape == top.shape
      && r.state.(plan := s.plan, builds := s.builds, log := s.log) == s
    decreases |bottoms|
  {
    var r1 := ForwardSpec(s, cfg, bottoms[0], top);
    ForwardPreservesInv(s, cfg, bottoms[0], top);
    if r1.status.Success? {
      var first: seq<Event> := if s.plan.None? then [BuildPlan] else [];
      if |bottoms| == 1 {
        assert Repeat(Cycle, 1) == Cycle;
      } else {
        ForwardsBuildOnce(r1.state, cfg, bottoms[1..], r1.top);
        assert Repeat(Cycle, |bottoms|) == Cycle + Repeat(Cycle, |bottoms[1..]|);
        assert r1.state.log == s.log + first + Cycle;
      }
    }
  }

  /** The plan is never rebuilt: once it exists, a reshape to other dimensions
      followed by forward calls on any bottoms leaves it, and the counter, as they were. */
  lemma {:induction false} PlanOutlivesReshape(s: LayerState, cfg: Config, bottom: Tensor,
                                               top: Tensor, bottoms: seq<Tensor>)
    requires Inv(s) && s.plan.Some? && |bottoms| > 0
    ensures var r0 := ReshapeSpec(s, cfg.param, bottom, top);
      var r := RunForwards(r0.state, cfg, bottoms, r0.top);
      && r.status == Success
      && r.state.plan == s.plan && r.state.builds == 1
      && (|bottom.shape| == 4 ==> Dims(r.state) == bottom.shape)
  {
    var r0 := ReshapeSpec(s, cfg.param, bottom, top);
    ReshapePreservesInv(s, cfg.param, bottom, top);
    ForwardsBuildOnce(r0.state, cfg, bottoms, r0.top);
  }

  /** `k` is stored but never reaches the plan: the plan does not depend on it. */
  lemma PlanIgnoresK(cfg: Config, s: LayerState, bottom: Tensor, k: Scalar)
    ensures InitPlan(cfg, s.(k := k), bottom) == InitPlan(cfg, s, bottom)
  {
  }
}
