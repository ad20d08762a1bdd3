/** One batch from payload to store: validation, the conflict pass, execution.  The main
    result here is that what the validator lets through can always be planned. */
module Batches {
  import opened Domain
  import opened Requests
  import opened Validation
  import opened Working
  import opened Conflicts
  import opened StateStore
  import opened Planning
  import opened Engine
  import opened Orders
  import opened Atoms

  /** What the validator reads for one coalition. */
  function ContextOf(st: StoreState, c: Coalition, known: Option<seq<KnownControlPoint>>): Context
    requires c in st.budgets
  {
    Context(c, st.budgets[c], st.active, st.reserves, st.world, known)
  }

  function ValidateEach(sc: Scenario, ctx: Context, payload: seq<RawAction>): (r: seq<Verdict>)
    ensures |r| == |payload| && forall i :: 0 <= i < |r| ==> r[i] == Validated(payload[i], sc, ctx)
  {
    seq(|payload|, i requires 0 <= i < |payload| => Validated(payload[i], sc, ctx))
  }

  function ValidateBatch(sc: Scenario, ctx: Context, payload: seq<RawAction>): seq<Verdict> {
    Resolve(ValidateEach(sc, ctx, payload))
  }

  method ValidatePayload(sc: Scenario, ctx: Context, payload: seq<RawAction>) returns (verdicts: seq<Verdict>)
    ensures verdicts == ValidateBatch(sc, ctx, payload)
  {
    hide Validated, Resolve;
    var working: seq<WorkingResult> := [];
    for i := 0 to |payload|
      invariant |working| == i && Distinct(working)
      invariant forall j :: 0 <= j < i ==> fresh(working[j])
      invariant forall j :: 0 <= j < i ==> working[j].View() == Validated(payload[j], sc, ctx)
    {
      var result := ValidateOne(payload[i], sc, ctx);
      working := working + [result];
    }
    assert Views(working) == ValidateEach(sc, ctx, payload);
    ApplyConflicts(working);
    verdicts := Views(working);
  }

  /** Everything execution may rely on about a validated batch. */
  ghost predicate Vetted(sc: Scenario, ctx: Context, vs: seq<Verdict>) {
    && ConflictFree(vs)
    && forall v <- vs :: Candidate(v) ==> WellFormed(v.params.value) && Legal(sc, ctx, v.params.value)
  }

  lemma ValidatedBatchIsVetted(sc: Scenario, ctx: Context, payload: seq<RawAction>)
    ensures Vetted(sc, ctx, ValidateBatch(sc, ctx, payload))
  {
    var each := ValidateEach(sc, ctx, payload);
    SelectionIsGreedy(each);
    forall i | 0 <= i < |each| && Candidate(Resolve(each)[i])
      ensures WellFormed(each[i].params.value) && Legal(sc, ctx, each[i].params.value)
    {
      VerdictMeaning(payload[i], sc, ctx);
    }
  }

  // --------------------------------------------------------- what execution keeps

  /** Groups never disappear and reserves keep their identity. */
  ghost predicate Grown(st: StoreState, st': StoreState) {
    && st.active.Keys <= st'.active.Keys
    && st.reserves.Keys == st'.reserves.Keys
    && st.budgets.Keys == st'.budgets.Keys
    && (forall r <- st.reserves ::
          st'.reserves[r] == st.reserves[r].(available := st'.reserves[r].available, status := st'.reserves[r].status))
  }

  lemma OrdersStep(st: StoreState, a: Atom, now: int)
    requires OrdersOk(st.orders) && OrderOk(a.order)
    ensures OrdersOk(Perform(st, a, now).orders)
  {
    UpsertWritesOneRow(st.orders, a.order);
  }

  lemma {:induction false} StepsKeepShape(st: StoreState, mid: StoreState, steps: seq<Atom>, now: int)
    requires Grown(st, mid) && OrdersOk(mid.orders) && forall a <- steps :: OrderOk(a.order)
    ensures Grown(st, PerformAll(mid, steps, now)) && OrdersOk(PerformAll(mid, steps, now).orders)
  {
    if steps != [] {
      var front, last := steps[..|steps| - 1], steps[|steps| - 1];
      StepsKeepShape(st, mid, front, now);
      OrdersStep(PerformAll(mid, front, now), last, now);
    }
  }

  /** Every step of an action carries a well-kept order of its own coalition. */
  predicate OwnOrder(a: Atom, c: Coalition, p: Params) {
    OrderOk(a.order) && a.order.coalition == c && a.order.fingerprint.params == p
  }

  lemma StepOrdersOk(sc: Scenario, c: Coalition, p: Params, now: int)
    requires WellFormed(p) && Steps(sc, c, p, now).Some?
    ensures forall a <- Steps(sc, c, p, now).value :: OwnOrder(a, c, p)
  {
    NamesAreNotEmpty(p);
    hide WellFormed, OrderOk, OrderFor;
    match p
    case Reinforce(_, gs, _) =>
      var steps := Steps(sc, c, p, now).value;
      assert NamedGroups(p) == gs;
      forall i | 0 <= i < |steps| ensures OwnOrder(steps[i], c, p) {
        assert gs[i] in gs;
        OrderForIsOk(c, p, gs[i], Some(gs[i]), now);
      }
    case Prioritize(s, _) => OrderForIsOk(c, p, s, None, now);
    case Deploy(r, _, _) => OrderForIsOk(c, p, DeployedId(r), None, now);
    case Reposition(g, _, _) => OrderForIsOk(c, p, g, None, now);
    case Withdraw(g, _, _) => OrderForIsOk(c, p, g, None, now);
    case ChangePosture(g, _) => OrderForIsOk(c, p, g, None, now);
    case Hold(_, _, _) =>
  }

  /** What the validator checked suffices for every lookup the planner makes, also after
      other actions of the batch have changed the store. */
  lemma LegalIsBuildable(
      sc: Scenario, st: StoreState, mid: StoreState, c: Coalition, known: Option<seq<KnownControlPoint>>, actionId: string,
      p: Params, now: int)
    requires ReferencesResolve(sc) && c in st.budgets
    requires Legal(sc, ContextOf(st, c, known), p) && Grown(st, mid)
    ensures BuildPlan(sc, mid, c, actionId, p, now).Some?
  {
    match p
    case Reposition(g, t, d) => assert g in NamedGroups(p); DestinationsAgree(sc, t, d);
    case Withdraw(g, t, d) => assert g in NamedGroups(p); DestinationsAgree(sc, t, d);
    case ChangePosture(g, _) => assert g in NamedGroups(p);
    case Reinforce(cp, gs, _) => assert NamedGroups(p) == gs;
    case _ =>
  }

  /** The validator's and the planner's resolutions of a destination agree. */
  lemma DestinationsAgree(sc: Scenario, t: DestinationType, d: string)
    requires ReferencesResolve(sc) && DestinationSector(sc, t, d).Ok?
    ensures ResolveDestination(sc, t, d).Some?
    ensures ResolveDestination(sc, t, d).value.0 == DestinationSector(sc, t, d).value
    ensures FindSector(sc.sectors, DestinationSector(sc, t, d).value).Some?
    ensures var point := ResolveDestination(sc, t, d).value.1;
      point.Some? ==>
        && FindControlPoint(sc.controlPoints, point.value).Some?
        && FindControlPoint(sc.controlPoints, point.value).value.sectorId == DestinationSector(sc, t, d).value
  {
  }

  /** One action of a vetted batch, at any point of its execution. */
  lemma VettedAction(
      sc: Scenario, sim: Simulator, env: Env, st: StoreState, c: Coalition, known: Option<seq<KnownControlPoint>>,
      actionId: string, p: Params, now: int)
    requires ReferencesResolve(sc) && c in st.budgets && WellFormed(p)
    requires Legal(sc, ContextOf(st, c, known), p) && Grown(st, env.store) && OrdersOk(env.store.orders)
    ensures Steps(sc, c, p, now).Some?
    ensures var plan := BuildPlan(sc, env.store, c, actionId, p, now);
      plan.Some? && RefinesSteps(sim, env, c, plan.value, Steps(sc, c, p, now).value, now)
    ensures var (env', _) := RunPlan(sim, env, c, BuildPlan(sc, env.store, c, actionId, p, now).value);
      Grown(st, env'.store) && OrdersOk(env'.store.orders)
  {
    LegalIsBuildable(sc, st, env.store, c, known, actionId, p, now);
    ActionRefines(sc, sim, env, c, actionId, p, now);
    var plan := BuildPlan(sc, env.store, c, actionId, p, now).value;
    var steps := Steps(sc, c, p, now).value;
    var n := Effective(plan, RunPlan(sim, env, c, plan).1);
    StepOrdersOk(sc, c, p, now);
    assert forall a <- steps[..n] :: a in steps;
    StepsKeepShape(st, env.store, steps[..n], now);
  }

  /** Accepted implies executable: whatever the simulator answers, executing a vetted batch
      never fails a lookup. */
  lemma {:induction false} BatchCompletes(
      sc: Scenario, sim: Simulator, env: Env, c: Coalition, known: Option<seq<KnownControlPoint>>, vs: seq<Verdict>, now: int)
    requires ReferencesResolve(sc) && c in env.store.budgets && OrdersOk(env.store.orders)
    requires forall v <- vs :: Candidate(v) ==>
      WellFormed(v.params.value) && Legal(sc, ContextOf(env.store, c, known), v.params.value)
    ensures var outcome := ExecuteBatch(sc, sim, env, c, vs, now);
      outcome.Completed? && Grown(env.store, outcome.env.store) && OrdersOk(outcome.env.store.orders)
  {
    if vs != [] {
      var n := |vs| - 1;
      BatchCompletes(sc, sim, env, c, known, vs[..n], now);
      if Candidate(vs[n]) {
        var mid := ExecuteBatch(sc, sim, env, c, vs[..n], now).env;
        VettedAction(sc, sim, mid, env.store, c, known, vs[n].actionId, vs[n].params.value, now);
      }
    }
  }
}
