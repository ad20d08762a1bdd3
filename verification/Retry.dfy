/** Repeating and retrying actions: later attempts absorb earlier ones. */
module Retry {
  import opened Domain
  import opened Requests
  import opened StateStore
  import opened Planning
  import opened Engine
  import opened Orders
  import opened Atoms
  import opened Batches
  import opened Commuting
  import opened Effects
  import opened OrderIndependence

  /** The same step of the same action, taken at another time. */
  predicate SameStep(a: Atom, b: Atom) {
    && a.order.id == b.order.id
    && match (a, b)
       case (Order(_), Order(_)) => true
       case (Stance(g, posture, _), Stance(g', posture', _)) => g == g' && posture == posture'
       case (Move(g, s, point, posture, _), Move(g', s', point', posture', _)) =>
         g == g' && s == s' && point == point' && posture == posture'
       case _ => false
  }

  /** A step absorbs an earlier taking of itself: it fixes everything the earlier one wrote. */
  lemma StepAbsorbs(st: StoreState, a: Atom, at: int, b: Atom, bt: int)
    requires SameStep(a, b)
    ensures Perform(Perform(st, a, at), b, bt) == Perform(st, b, bt)
  {
    hide Contains, PlacedWorldGroup;
    assert st.orders[a.order.id := a.order][b.order.id := b.order] == st.orders[b.order.id := b.order];
    match a
    case Move(g, sector, point, posture, _) =>
      if g in st.active {
        var group := st.active[g];
        var moved := MovedGroup(group, g, sector.id, point, posture);
        assert MovedGroup(moved, g, sector.id, point, posture) == moved;
        var first := PlacedWorldGroup(sector, g, g, group.coalition, group.groupType, point, group.mobile, at);
        var second := PlacedWorldGroup(sector, g, g, group.coalition, group.groupType, point, group.mobile, bt);
        assert st.active[g := moved][g := moved] == st.active[g := moved];
        assert st.world[g := first][g := second] == st.world[g := second];
      }
    case Stance(g, posture, _) =>
      if g in st.active {
        var group := st.active[g].(id := g, posture := posture);
        assert st.active[g := group][g := group] == st.active[g := group];
      }
    case Order(_) =>
  }

  /** An action's steps taken at two times: same steps in the same places, others apart. */
  ghost predicate SameSteps(xs: seq<Atom>, ys: seq<Atom>) {
    && |xs| == |ys|
    && (forall i :: 0 <= i < |xs| ==> SameStep(xs[i], ys[i]))
    && forall i, j :: 0 <= i < |xs| && 0 <= j < |ys| && i != j ==> StepsApart(xs[i], ys[j])
  }

  lemma {:induction false} StepIsAbsorbed(st: StoreState, x: Atom, at: int, ys: seq<Atom>, i: nat, n: nat, bt: int)
    requires i < n <= |ys| && SameStep(x, ys[i])
    requires forall j :: 0 <= j < |ys| && j != i ==> StepsApart(x, ys[j])
    ensures PerformAll(Perform(st, x, at), ys[..n], bt) == PerformAll(st, ys[..n], bt)
    decreases n
  {
    hide Perform, SameStep, StepsApart;
    PrefixStep(ys, n - 1);
    if n - 1 > i {
      StepIsAbsorbed(st, x, at, ys, i, n - 1, bt);
    } else {
      forall y | y in ys[..i] ensures StepsApart(x, y) {
        var j :| 0 <= j < i && ys[..i][j] == y;
        assert ys[j] == y;
      }
      StepPassesSteps(st, x, at, ys[..i], bt);
      StepAbsorbs(PerformAll(st, ys[..i], bt), x, at, ys[i], bt);
    }
  }

  /** Taking all steps of an action absorbs an earlier, possibly partial, taking of it. */
  lemma {:induction false} PrefixIsAbsorbed(st: StoreState, xs: seq<Atom>, at: int, n: nat, ys: seq<Atom>, bt: int)
    requires SameSteps(xs, ys) && n <= |xs|
    ensures PerformAll(PerformAll(st, xs[..n], at), ys, bt) == PerformAll(st, ys, bt)
  {
    hide Perform, SameStep, StepsApart;
    if n > 0 {
      PrefixStep(xs, n - 1);
      PrefixIsAbsorbed(st, xs, at, n - 1, ys, bt);
      assert ys[..|ys|] == ys;
      StepIsAbsorbed(PerformAll(st, xs[..n - 1], at), xs[n - 1], at, ys, n - 1, |ys|, bt);
    }
  }

  lemma ReinforceStepsAtOtherTime(
      c: Coalition, p: Params, sector: Sector, point: ControlPoint, at: int, bt: int)
    requires p.Reinforce? && WellFormed(p)
    ensures SameSteps(ReinforceSteps(c, p, sector, point, p.groupIds, at), ReinforceSteps(c, p, sector, point, p.groupIds, bt))
  {
    hide OrderId;
    NamesAreNotEmpty(p);
    var gs := p.groupIds;
    forall i, j | 0 <= i < |gs| && 0 <= j < |gs| && i != j
      ensures OrderId(c, ReinforceControlPoint, Some(gs[i])) != OrderId(c, ReinforceControlPoint, Some(gs[j]))
    {
      assert gs[i] in NamedGroups(p) && gs[j] in NamedGroups(p) && gs[i] != gs[j];
      OrderIdInjective(c, ReinforceControlPoint, Some(gs[i]), c, ReinforceControlPoint, Some(gs[j]));
    }
  }

  lemma StepsAtOtherTime(sc: Scenario, c: Coalition, p: Params, at: int, bt: int)
    requires WellFormed(p) && !p.Deploy? && Steps(sc, c, p, at).Some?
    ensures Steps(sc, c, p, bt).Some? && SameSteps(Steps(sc, c, p, at).value, Steps(sc, c, p, bt).value)
  {
    hide OrderId, ReinforceSteps;
    if p.Reinforce? {
      var point := FindControlPoint(sc.controlPoints, p.controlPointId).value;
      ReinforceStepsAtOtherTime(c, p, FindSector(sc.sectors, point.sectorId).value, point, at, bt);
    }
  }

  // ------------------------------------------------------------------ repetition

  ghost predicate OnFileAtOwnIds(orders: map<string, StandingOrder>, steps: seq<Atom>) {
    forall a <- steps :: a.order.id in orders && orders[a.order.id] == a.order
  }

  lemma {:induction false} OrdersLanded(st: StoreState, steps: seq<Atom>, now: int, n: nat)
    requires n <= |steps| && forall i, j :: 0 <= i < j < |steps| ==> steps[i].order.id != steps[j].order.id
    requires forall a <- steps :: (a.Move? || a.Stance? ==> a.groupId in st.active) && !a.Commit?
    ensures var st' := PerformAll(st, steps[..n], now);
      st'.active.Keys == st.active.Keys && OnFileAtOwnIds(st'.orders, steps[..n])
  {
    hide Perform;
    if n > 0 {
      PrefixStep(steps, n - 1);
      OrdersLanded(st, steps, now, n - 1);
      var mid := PerformAll(st, steps[..n - 1], now);
      assert PerformAll(st, steps[..n], now) == Perform(mid, steps[n - 1], now);
      hide PerformAll;
      assert steps[n - 1] in steps;
      OrderLands(mid, steps[n - 1], now);
    }
  }

  lemma OrderLands(st: StoreState, a: Atom, now: int)
    requires (a.Move? || a.Stance? ==> a.groupId in st.active) && !a.Commit?
    ensures Perform(st, a, now).active.Keys == st.active.Keys
    ensures Perform(st, a, now).orders == st.orders[a.order.id := a.order]
  {
    hide Contains;
  }

  lemma AppliedIsOnFile(st: StoreState, steps: seq<Atom>, c: Coalition, now: int)
    requires steps != [] && forall i, j :: 0 <= i < j < |steps| ==> steps[i].order.id != steps[j].order.id
    requires forall a <- steps ::
      (a.Move? || a.Stance? ==> a.groupId in st.active) && !a.Commit? && a.order.active && a.order.coalition == c
    ensures OnFile(PerformAll(st, steps, now).orders, c, steps)
  {
    assert steps[..|steps|] == steps;
    OrdersLanded(st, steps, now, |steps|);
    hide PerformAll;
  }

  lemma BuildAgain(sc: Scenario, st: StoreState, st': StoreState, c: Coalition, id: string, id': string, p: Params, now: int, now': int)
    requires !p.Deploy? && BuildPlan(sc, st, c, id, p, now).Some? && st.active.Keys <= st'.active.Keys
    ensures BuildPlan(sc, st', c, id', p, now').Some?
  {
  }

  lemma FullEffect(plan: Plan, result: ExecutionResult, steps: seq<Atom>)
    requires result.status in {Succeeded, NoChange} && |plan.orders| == |steps|
    ensures steps[..Effective(plan, result)] == steps
  {
  }

  /** Steps of an action at another time carry the same fingerprints. */
  lemma SameFingerprints(sc: Scenario, c: Coalition, p: Params, at: int, bt: int)
    requires Steps(sc, c, p, at).Some? && Steps(sc, c, p, bt).Some?
    ensures var xs, ys := Steps(sc, c, p, at).value, Steps(sc, c, p, bt).value;
      |xs| == |ys| && forall i :: 0 <= i < |xs| ==> xs[i].order.fingerprint == ys[i].order.fingerprint
  {
    hide OrderId;
  }

  lemma StepsNeedGroups(sc: Scenario, st: StoreState, c: Coalition, id: string, p: Params, now: int)
    requires WellFormed(p) && !p.Deploy? && !p.Hold?
    requires BuildPlan(sc, st, c, id, p, now).Some? && Steps(sc, c, p, now).Some?
    ensures forall a <- Steps(sc, c, p, now).value ::
      && (a.Move? || a.Stance? ==> a.groupId in st.active) && !a.Commit? && a.order.active && a.order.coalition == c
    ensures Steps(sc, c, p, now).value != []
  {
    StepsHaveShape(sc, c, p, now);
    ReinforceNamesGroups(p);
    assert p.ChangePosture? ==> NamedGroups(p)[0] == p.groupId;
    var steps := Steps(sc, c, p, now).value;
    forall a | a in steps
      ensures (a.Move? || a.Stance? ==> a.groupId in st.active) && !a.Commit? && a.order.active && a.order.coalition == c
    {
      assert StepShape(c, p, a);
    }
    hide BuildPlan;
  }

  /** After an action took full effect, it is on file, for whatever time it is planned again. */
  lemma FirstRun(
      sc: Scenario, sim: Simulator, env: Env, c: Coalition, id: string, p: Params, now: int, now': int)
    requires WellFormed(p) && !p.Deploy? && !p.Hold? && OrdersOk(env.store.orders)
    requires BuildPlan(sc, env.store, c, id, p, now).Some?
    requires RunPlan(sim, env, c, BuildPlan(sc, env.store, c, id, p, now).value).1.status in {Succeeded, NoChange}
    ensures Steps(sc, c, p, now).Some? && Steps(sc, c, p, now').Some?
    ensures var env1 := RunPlan(sim, env, c, BuildPlan(sc, env.store, c, id, p, now).value).0;
      && SameTables(env1.store, PerformAll(env.store, Steps(sc, c, p, now).value, now))
      && OrdersOk(env1.store.orders) && env.store.active.Keys <= env1.store.active.Keys
      && OnFile(env1.store.orders, c, Steps(sc, c, p, now').value)
  {
    hide BuildPlan, WellFormed, RunPlan, StepShape;
    var plan := BuildPlan(sc, env.store, c, id, p, now).value;
    var env1 := RunPlan(sim, env, c, plan).0;
    ActionRefines(sc, sim, env, c, id, p, now);
    StepsAtOtherTime(sc, c, p, now, now');
    StepsAtOtherTime(sc, c, p, now, now);
    SameFingerprints(sc, c, p, now, now');
    StepsNeedGroups(sc, env.store, c, id, p, now);
    StepOrdersOk(sc, c, p, now);
    hide Steps;
    var xs, ys := Steps(sc, c, p, now).value, Steps(sc, c, p, now').value;
    FullEffect(plan, RunPlan(sim, env, c, plan).1, xs);
    forall a | a in xs ensures OrderOk(a.order) {
      assert OwnOrder(a, c, p);
    }
    StepsKeepShape(env.store, env.store, xs, now);
    AppliedIsOnFile(env.store, xs, c, now);
    OnFileToo(env1.store.orders, c, xs, ys);
  }

  lemma OnFileToo(rows: map<string, StandingOrder>, c: Coalition, xs: seq<Atom>, ys: seq<Atom>)
    requires OnFile(rows, c, xs) && |xs| == |ys|
    requires forall i :: 0 <= i < |xs| ==> xs[i].order.fingerprint == ys[i].order.fingerprint
    ensures OnFile(rows, c, ys)
  {
    forall y | y in ys ensures y.order.fingerprint in ActiveFingerprints(rows, c) {
      var i :| 0 <= i < |ys| && ys[i] == y;
      assert xs[i] in xs;
    }
  }

  /** Running an action that is on file. */
  lemma SecondRun(sc: Scenario, sim: Simulator, env: Env, c: Coalition, id: string, p: Params, now: int)
    requires WellFormed(p) && OrdersOk(env.store.orders)
    requires BuildPlan(sc, env.store, c, id, p, now).Some? && Steps(sc, c, p, now).Some?
    requires OnFile(env.store.orders, c, Steps(sc, c, p, now).value)
    ensures var (env', result) := RunPlan(sim, env, c, BuildPlan(sc, env.store, c, id, p, now).value);
      && result.status == NoChange && env'.sent == env.sent
      && SameTables(env'.store, PerformAll(env.store, Steps(sc, c, p, now).value, now))
  {
    hide BuildPlan, Steps, Requested;
    ReinforceNamesGroups(p);
    hide WellFormed;
    var plan := BuildPlan(sc, env.store, c, id, p, now).value;
    var steps := Steps(sc, c, p, now).value;
    PlanIsStoreFree(sc, env.store, c, id, p, now);
    RepetitionIsOnFile(plan, Requested(sc, c, p), steps, env.store.orders, c);
    ActionRefines(sc, sim, env, c, id, p, now);
    FullEffect(plan, RunPlan(sim, env, c, plan).1, steps);
  }

  /** Whether a step would leave the group it is about as it is. */
  predicate Stands(st: StoreState, a: Atom) {
    match a
    case Order(_) => true
    case Stance(g, posture, _) => g in st.active && st.active[g].id == g && st.active[g].posture == posture
    case Move(g, sector, point, posture, _) =>
      g in st.active && st.active[g] == MovedGroup(st.active[g], g, sector.id, point, posture)
    case Commit(_, _, _, _) => false
  }

  lemma {:induction false} StandingStepsMoveNothing(st: StoreState, steps: seq<Atom>, now: int)
    requires forall a <- steps :: Stands(st, a)
    ensures var st' := PerformAll(st, steps, now);
      st'.active == st.active && st'.reserves == st.reserves && st'.budgets == st.budgets
  {
    hide Stands, Perform;
    if steps != [] {
      var front, last := steps[..|steps| - 1], steps[|steps| - 1];
      StandingStepsMoveNothing(st, front, now);
      StandingStepMovesNothing(st, PerformAll(st, front, now), last, now);
    }
  }

  lemma StandingStepMovesNothing(st: StoreState, mid: StoreState, a: Atom, now: int)
    requires Stands(st, a) && mid.active == st.active
    ensures var st' := Perform(mid, a, now);
      st'.active == mid.active && st'.reserves == mid.reserves && st'.budgets == mid.budgets
  {
    hide Contains;
  }

  /** Whatever has happened in between: an action whose orders are still active is recognised as a
      repetition and sends nothing, and if its groups still are where and as it put them, no group,
      reserve or budget changes. */
  lemma LaterRepetitionIsSilent(sc: Scenario, sim: Simulator, env: Env, c: Coalition, id: string, p: Params, now: int)
    requires WellFormed(p) && OrdersOk(env.store.orders)
    requires BuildPlan(sc, env.store, c, id, p, now).Some? && Steps(sc, c, p, now).Some?
    requires OnFile(env.store.orders, c, Steps(sc, c, p, now).value)
    ensures var (env', result) := RunPlan(sim, env, c, BuildPlan(sc, env.store, c, id, p, now).value);
      && result.status == NoChange && env'.sent == env.sent
      && ((forall a <- Steps(sc, c, p, now).value :: Stands(env.store, a)) ==>
            && env'.store.active == env.store.active
            && env'.store.reserves == env.store.reserves && env'.store.budgets == env.store.budgets)
  {
    SecondRun(sc, sim, env, c, id, p, now);
    hide BuildPlan, Steps, RunPlan, Stands, WellFormed;
    if forall a <- Steps(sc, c, p, now).value :: Stands(env.store, a) {
      StandingStepsMoveNothing(env.store, Steps(sc, c, p, now).value, now);
    }
  }

  /** Re-executing an action that has just taken full effect: it is recognised as a repetition,
      nothing is sent, and the tables are as if it had been executed once, at the later time. */
  lemma RepetitionIsSilent(
      sc: Scenario, sim: Simulator, sim': Simulator, env: Env, c: Coalition, id: string, id': string, p: Params,
      now: int, now': int)
    requires WellFormed(p) && !p.Deploy? && !p.Hold? && OrdersOk(env.store.orders)
    requires BuildPlan(sc, env.store, c, id, p, now).Some?
    requires RunPlan(sim, env, c, BuildPlan(sc, env.store, c, id, p, now).value).1.status in {Succeeded, NoChange}
    ensures Steps(sc, c, p, now').Some?
    ensures var env1 := RunPlan(sim, env, c, BuildPlan(sc, env.store, c, id, p, now).value).0;
      var plan := BuildPlan(sc, env1.store, c, id', p, now');
      && plan.Some?
      && var (env2, result) := RunPlan(sim', env1, c, plan.value);
      && result.status == NoChange && env2.sent == env1.sent
      && SameTables(env2.store, PerformAll(env.store, Steps(sc, c, p, now').value, now'))
  {
    FirstRun(sc, sim, env, c, id, p, now, now');
    hide RunPlan;
    var env1 := RunPlan(sim, env, c, BuildPlan(sc, env.store, c, id, p, now).value).0;
    BuildAgain(sc, env.store, env1.store, c, id, id', p, now, now');
    hide BuildPlan, WellFormed;
    SecondRun(sc, sim', env1, c, id', p, now');
    StepsAtOtherTime(sc, c, p, now, now');
    hide Steps;
    var xs, ys := Steps(sc, c, p, now).value, Steps(sc, c, p, now').value;
    StepsIgnoreLog(env1.store, PerformAll(env.store, xs, now), ys, now');
    assert xs[..|xs|] == xs;
    PrefixIsAbsorbed(env.store, xs, now, |xs|, ys, now');
  }

  // ----------------------------------------------------------------------- retries

  /** One attempt at an action: which simulator answers, under which action id, and when. */
  datatype Attempt = Attempt(sim: Simulator, actionId: string, now: int)

  function Try(sc: Scenario, env: Env, c: Coalition, p: Params, t: Attempt): Env {
    match BuildPlan(sc, env.store, c, t.actionId, p, t.now)
    case None => env
    case Some(plan) => RunPlan(t.sim, env, c, plan).0
  }

  function TryAll(sc: Scenario, env: Env, c: Coalition, p: Params, ts: seq<Attempt>): Env {
    if ts == [] then env else Try(sc, TryAll(sc, env, c, p, ts[..|ts| - 1]), c, p, ts[|ts| - 1])
  }

  /** An attempt performs some prefix of the steps; one that is fully accepted performs all. */
  lemma AttemptPerformsPrefix(sc: Scenario, env: Env, c: Coalition, p: Params, t: Attempt) returns (n: nat)
    requires WellFormed(p) && p.Reinforce? && OrdersOk(env.store.orders)
    requires BuildPlan(sc, env.store, c, t.actionId, p, t.now).Some?
    ensures Steps(sc, c, p, t.now).Some? && n <= |Steps(sc, c, p, t.now).value|
    ensures SameTables(Try(sc, env, c, p, t).store, PerformAll(env.store, Steps(sc, c, p, t.now).value[..n], t.now))
    ensures OrdersOk(Try(sc, env, c, p, t).store.orders)
    ensures env.store.active.Keys <= Try(sc, env, c, p, t).store.active.Keys
    ensures AcceptsAll(t.sim) ==> n == |Steps(sc, c, p, t.now).value|
  {
    hide BuildPlan, WellFormed, RunPlan, Requested;
    var plan := BuildPlan(sc, env.store, c, t.actionId, p, t.now).value;
    ActionRefines(sc, t.sim, env, c, t.actionId, p, t.now);
    StepOrdersOk(sc, c, p, t.now);
    ReinforceNamesGroups(p);
    PlanIsStoreFree(sc, env.store, c, t.actionId, p, t.now);
    hide Steps, AcceptsAll;
    var steps := Steps(sc, c, p, t.now).value;
    n := Effective(plan, RunPlan(t.sim, env, c, plan).1);
    forall a | a in steps[..n] ensures OrderOk(a.order) {
      assert a in steps && OwnOrder(a, c, p);
    }
    StepsKeepShape(env.store, env.store, steps[..n], t.now);
    if AcceptsAll(t.sim) {
      EverythingAccepted(t.sim, env, c, plan, Requested(sc, c, p), steps);
    }
  }

  lemma EverythingAccepted(sim: Simulator, env: Env, c: Coalition, plan: Plan, rs: seq<Request>, steps: seq<Atom>)
    requires AcceptsAll(sim) && PlanFor(plan, rs, steps)
    ensures Effective(plan, RunPlan(sim, env, c, plan).1) == |steps|
  {
    EffectiveIsCount(sim, env, c, plan, rs, steps);
    AllRequestsAccepted(sim, rs);
  }

  lemma {:induction false} AllRequestsAccepted(sim: Simulator, rs: seq<Request>)
    requires AcceptsAll(sim)
    ensures AcceptedRequests(sim, rs) == |rs|
  {
    if rs != [] {
      AllRequestsAccepted(sim, rs[1..]);
    }
  }

  /** Retry convergence: any failed or partial attempts at a reinforcement, whatever the
      simulators answered, followed by one where every command is accepted, leave the same
      tables as that last attempt alone. */
  lemma {:induction false} RetryConverges(sc: Scenario, env: Env, c: Coalition, p: Params, ts: seq<Attempt>, last: Attempt)
    requires WellFormed(p) && p.Reinforce? && OrdersOk(env.store.orders)
    requires BuildPlan(sc, env.store, c, last.actionId, p, last.now).Some?
    requires AcceptsAll(last.sim)
    ensures SameTables(Try(sc, TryAll(sc, env, c, p, ts), c, p, last).store, Try(sc, env, c, p, last).store)
    decreases |ts|
  {
    if ts != [] {
      var first, rest := ts[0], ts[1..];
      hide WellFormed, RunPlan, Try;
      BuildAgain(sc, env.store, env.store, c, last.actionId, first.actionId, p, last.now, first.now);
      var n := AttemptPerformsPrefix(sc, env, c, p, first);
      var env1 := Try(sc, env, c, p, first);
      BuildAgain(sc, env.store, env1.store, c, last.actionId, last.actionId, p, last.now, last.now);
      hide BuildPlan;
      FirstAttemptFirst(sc, env, c, p, ts);
      RetryConverges(sc, env1, c, p, rest, last);
      var m := AttemptPerformsPrefix(sc, env1, c, p, last);
      var k := AttemptPerformsPrefix(sc, env, c, p, last);
      StepsAtOtherTime(sc, c, p, first.now, last.now);
      hide Steps;
      var xs, ys := Steps(sc, c, p, first.now).value, Steps(sc, c, p, last.now).value;
      assert ys[..|ys|] == ys;
      StepsIgnoreLog(env1.store, PerformAll(env.store, xs[..n], first.now), ys, last.now);
      PrefixIsAbsorbed(env.store, xs, first.now, n, ys, last.now);
    }
  }

  lemma {:induction false} FirstAttemptFirst(sc: Scenario, env: Env, c: Coalition, p: Params, ts: seq<Attempt>)
    requires ts != []
    ensures TryAll(sc, env, c, p, ts) == TryAll(sc, Try(sc, env, c, p, ts[0]), c, p, ts[1..])
  {
    hide Try;
    var n := |ts| - 1;
    if n > 0 {
      FirstAttemptFirst(sc, env, c, p, ts[..n]);
      assert ts[..n][1..] == ts[1..][..n - 1] && ts[1..][n - 1] == ts[n];
    } else {
      assert ts[..0] == [] && ts[1..] == [];
    }
  }

  /** Exactly the listed groups were moved to the control point, with their world records. */
  ghost predicate ExactlyMoved(st: StoreState, st': StoreState, gs: seq<string>, sector: Sector, point: string, now: int) {
    && st'.active.Keys == st.active.Keys
    && (forall g <- gs ::
          && g in st.active && st'.active[g] == MovedGroup(st.active[g], g, sector.id, Some(point), None)
          && g in st'.world && st'.world[g] == RecordOf(st.active[g], g, sector, point, now))
    && (forall g <- st.active :: g !in gs ==> st'.active[g] == st.active[g])
    && (forall g :: g !in gs ==>
          (g in st'.world <==> g in st.world) && (g in st.world ==> st'.world[g] == st.world[g]))
  }

  /** The world record of a group that has moved to a control point. */
  function RecordOf(group: ActiveGroup, g: string, sector: Sector, point: string, now: int): WorldGroup {
    PlacedWorldGroup(sector, g, g, group.coalition, group.groupType, Some(point), group.mobile, now)
  }

  lemma {:induction false} MovesLand(
      st: StoreState, steps: seq<Atom>, gs: seq<string>, sector: Sector, point: string, now: int, n: nat)
    requires |steps| == |gs| && n <= |gs| && forall g <- gs :: g in st.active
    requires forall i :: 0 <= i < |gs| ==> MoveTo(steps[i], gs[i], sector, point)
    ensures ExactlyMoved(st, PerformAll(st, steps[..n], now), gs[..n], sector, point, now)
  {
    if n > 0 {
      hide ExactlyMoved, Perform, MoveTo;
      MovesLand(st, steps, gs, sector, point, now, n - 1);
      PrefixStep(steps, n - 1);
      PrefixStep(gs, n - 1);
      assert gs[n - 1] in gs;
      OneMoreMove(st, PerformAll(st, steps[..n - 1], now), steps[n - 1], gs[..n - 1], gs[n - 1], sector, point, now);
      assert PerformAll(st, steps[..n], now) == Perform(PerformAll(st, steps[..n - 1], now), steps[n - 1], now);
      hide PerformAll;
    } else {
      hide MoveTo;
      assert steps[..0] == [] && gs[..0] == [];
    }
  }

  predicate MoveTo(step: Atom, g: string, sector: Sector, point: string) {
    step.Move? && step.groupId == g && step.sector == sector && step.point == Some(point) && step.newPosture == None
  }

  lemma OneMoreMove(
      st: StoreState, mid: StoreState, step: Atom, gs: seq<string>, g: string, sector: Sector, point: string, now: int)
    requires ExactlyMoved(st, mid, gs, sector, point, now) && MoveTo(step, g, sector, point) && g in st.active
    ensures ExactlyMoved(st, Perform(mid, step, now), gs + [g], sector, point, now)
  {
    var st' := Perform(mid, step, now);
    assert g in mid.active && (mid.active[g] == st.active[g] || g in gs);
    assert st'.active[g] == MovedGroup(st.active[g], g, sector.id, Some(point), None);
    assert st'.world[g] == RecordOf(st.active[g], g, sector, point, now);
    hide Contains, ExactlyMoved, MovedGroup, RecordOf;
    MovedOneMore(st, mid, st', gs, g, sector, point, now);
  }

  lemma MovedOneMore(
      st: StoreState, mid: StoreState, st': StoreState, gs: seq<string>, g: string, sector: Sector, point: string, now: int)
    requires ExactlyMoved(st, mid, gs, sector, point, now) && g in st.active && g in st'.active && g in st'.world
    requires st'.active == mid.active[g := st'.active[g]] && st'.world == mid.world[g := st'.world[g]]
    requires st'.active[g] == MovedGroup(st.active[g], g, sector.id, Some(point), None)
    requires st'.world[g] == RecordOf(st.active[g], g, sector, point, now)
    ensures ExactlyMoved(st, st', gs + [g], sector, point, now)
  {
    hide MovedGroup, RecordOf;
    assert forall h :: h in gs + [g] <==> h in gs || h == g;
  }

  /** What one attempt at a reinforcement moves: exactly the groups of the accepted command
      prefix (all of them for a repetition), and a failed attempt changes nothing at all. */
  lemma AttemptMovesAcceptedPrefix(sc: Scenario, sim: Simulator, env: Env, c: Coalition, id: string, p: Params, now: int)
    requires WellFormed(p) && p.Reinforce? && OrdersOk(env.store.orders)
    requires BuildPlan(sc, env.store, c, id, p, now).Some?
    ensures Target(sc, p).Some?
    ensures var plan := BuildPlan(sc, env.store, c, id, p, now).value;
      var (env', result) := RunPlan(sim, env, c, plan);
      var n := if IsDuplicate(plan, ActiveFingerprints(env.store.orders, c)) then |p.groupIds|
               else AcceptedCount(sim, env.sent, plan.commands);
      && |plan.commands| == |p.groupIds| && n <= |p.groupIds|
      && (result.status == Failed <==> n == 0)
      && (n == 0 ==> env'.store == env.store)
      && ExactlyMoved(env.store, env'.store, p.groupIds[..n], Target(sc, p).value.0, p.controlPointId, now)
  {
    var plan := BuildPlan(sc, env.store, c, id, p, now).value;
    var steps := StepsOfReinforcement(sc, env.store, c, id, p, now);
    hide BuildPlan, WellFormed, Steps, ExactlyMoved, Target, MoveTo;
    ActionRefines(sc, sim, env, c, id, p, now);
    var n := if IsDuplicate(plan, ActiveFingerprints(env.store.orders, c)) then |p.groupIds|
             else AcceptedCount(sim, env.sent, plan.commands);
    MovesLand(env.store, steps, p.groupIds, Target(sc, p).value.0, p.controlPointId, now, n);
    SameMoves(env.store, PerformAll(env.store, steps[..n], now), RunPlan(sim, env, c, plan).0.store, p.groupIds[..n],
              Target(sc, p).value.0, p.controlPointId, now);
  }

  lemma SameMoves(
      st: StoreState, ideal: StoreState, st': StoreState, gs: seq<string>, sector: Sector, point: string, now: int)
    requires ExactlyMoved(st, ideal, gs, sector, point, now) && SameTables(st', ideal)
    ensures ExactlyMoved(st, st', gs, sector, point, now)
  {
  }

  lemma StepsOfReinforcement(sc: Scenario, st: StoreState, c: Coalition, id: string, p: Params, now: int) returns (steps: seq<Atom>)
    requires WellFormed(p) && p.Reinforce? && BuildPlan(sc, st, c, id, p, now).Some?
    ensures Steps(sc, c, p, now) == Some(steps) && |steps| == |p.groupIds| && steps != []
    ensures forall g <- p.groupIds :: g in st.active
    ensures Target(sc, p).Some?
    ensures forall i :: 0 <= i < |steps| ==> MoveTo(steps[i], p.groupIds[i], Target(sc, p).value.0, p.controlPointId)
    ensures var plan := BuildPlan(sc, st, c, id, p, now).value;
      plan.actionType == ReinforceControlPoint && |plan.commands| == |plan.orders| == |steps|
  {
    hide Contains, PlacedWorldGroup, MovedGroup, OrderFor;
    ReinforceNamesGroups(p);
    steps := Steps(sc, c, p, now).value;
  }
}
