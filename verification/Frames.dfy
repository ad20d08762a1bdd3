/** What a coalition's orders leave alone: the other side's books, groups and orders, and
    the sectors it may not deploy into. */
module Frames {
  import opened Domain
  import opened Requests
  import opened Validation
  import opened Working
  import opened Conflicts
  import opened StateStore
  import opened Planning
  import opened Engine
  import opened Orders
  import opened Atoms
  import opened Batches
  import opened Effects
  import opened Runs

  /** The last action of a batch prefix, seen through its effect. */
  lemma BatchLastStep(
      sc: Scenario, sim: Simulator, env: Env, c: Coalition, known: Option<seq<KnownControlPoint>>, vs: seq<Verdict>, now: int)
      returns (mid: StoreState, end: StoreState)
    requires vs != [] && ReferencesResolve(sc) && c in env.store.budgets && OrdersOk(env.store.orders)
    requires forall v <- vs :: Candidate(v) ==>
      WellFormed(v.params.value) && Legal(sc, ContextOf(env.store, c, known), v.params.value)
    ensures mid == ExecuteBatch(sc, sim, env, c, vs[..|vs| - 1], now).env.store
    ensures end == ExecuteBatch(sc, sim, env, c, vs, now).env.store
    ensures Grown(env.store, mid) && OrdersOk(mid.orders)
    ensures Candidate(vs[|vs| - 1]) ==> Effect(sc, c, vs[|vs| - 1].params.value, mid, end)
    ensures !Candidate(vs[|vs| - 1]) ==> end == mid
  {
    hide BuildPlan, RunPlan, Effect, Legal, WellFormed;
    var n := |vs| - 1;
    BatchCompletes(sc, sim, env, c, known, vs[..n], now);
    var before := ExecuteBatch(sc, sim, env, c, vs[..n], now).env;
    mid := before.store;
    end := ExecuteBatch(sc, sim, env, c, vs, now).env.store;
    if Candidate(vs[n]) {
      VettedAction(sc, sim, before, env.store, c, known, vs[n].actionId, vs[n].params.value, now);
      ActionHasEffect(sc, sim, before, c, vs[n].actionId, vs[n].params.value, now);
    }
  }

  // ------------------------------------------------------------ the other side

  /** Everything the store holds for one coalition. */
  datatype Holdings = Holdings(
    budget: Option<int>, reserves: map<string, ReserveGroup>, active: map<string, ActiveGroup>,
    orders: map<string, StandingOrder>)

  function HoldingsOf(st: StoreState, d: Coalition): Holdings {
    Holdings(
      if d in st.budgets then Some(st.budgets[d]) else None,
      st.reserves - (set r | r in st.reserves && st.reserves[r].coalition != d),
      st.active - (set g | g in st.active && st.active[g].coalition != d),
      st.orders - (set id | id in st.orders && st.orders[id].coalition != d))
  }

  /** No reserve's future map id is the name of a group of the other side. */
  ghost predicate NoNameClash(st: StoreState) {
    forall r <- st.reserves ::
      DeployedId(r) in st.active ==> st.active[DeployedId(r)].coalition == st.reserves[r].coalition
  }

  ghost predicate SameOwners(st: StoreState, mid: StoreState) {
    forall g <- st.active :: g in mid.active && mid.active[g].coalition == st.active[g].coalition
  }

  lemma NamedGroupsAreOwned(sc: Scenario, ctx: Context, p: Params)
    requires Legal(sc, ctx, p)
    ensures forall g <- NamedGroups(p) :: Owned(ctx, g)
    ensures p.ChangePosture? ==> p.groupId in NamedGroups(p)
    ensures forall g <- MovementGroups(p) :: g in NamedGroups(p)
  {
    forall g | g in NamedGroups(p) ensures Owned(ctx, g) {
      assert GroupLegal(sc, ctx, p, g);
    }
    assert p.ChangePosture? ==> NamedGroups(p)[0] == p.groupId;
  }

  /** An action on groups of c changes no owner and no group of the other side. */
  ghost predicate OnlyOwnGroups(c: Coalition, mid: StoreState, mid': StoreState) {
    && (forall g <- mid.active :: g in mid'.active && mid'.active[g].coalition == mid.active[g].coalition)
    && (forall g <- mid.active :: mid.active[g].coalition != c ==> mid'.active[g] == mid.active[g])
    && (forall g <- mid'.active :: g in mid.active || mid'.active[g].coalition == c)
  }

  lemma EffectOnOwnGroups(sc: Scenario, c: Coalition, p: Params, mid: StoreState, mid': StoreState)
    requires GroupEffect(sc, c, p, mid, mid')
    requires forall g <- NamedGroups(p) :: g in mid.active ==> mid.active[g].coalition == c
    requires p.ChangePosture? ==> p.groupId in NamedGroups(p)
    requires forall g <- MovementGroups(p) :: g in NamedGroups(p)
    requires p.Deploy? && DeployedId(p.reserveId) in mid.active ==> mid.active[DeployedId(p.reserveId)].coalition == c
    ensures OnlyOwnGroups(c, mid, mid')
  {
    hide Target, NamedGroups, MovementGroups;
  }

  lemma OwnersStay(
      sc: Scenario, st: StoreState, mid: StoreState, mid': StoreState, c: Coalition,
      known: Option<seq<KnownControlPoint>>, p: Params)
    requires c in st.budgets && Legal(sc, ContextOf(st, c, known), p)
    requires Grown(st, mid) && GroupEffect(sc, c, p, mid, mid') && FundsEffect(c, p, mid, mid')
    requires SameOwners(st, mid) && NoNameClash(mid)
    ensures SameOwners(st, mid') && NoNameClash(mid') && OnlyOwnGroups(c, mid, mid')
  {
    NamedGroupsAreOwned(sc, ContextOf(st, c, known), p);
    assert p.Deploy? ==> p.reserveId in mid.reserves && mid.reserves[p.reserveId].coalition == c;
    hide Legal, Target, NamedGroups, MovementGroups;
    EffectOnOwnGroups(sc, c, p, mid, mid');
    NoNewClash(sc, c, p, mid, mid');
    hide GroupEffect, FundsEffect, NoNameClash;
  }

  lemma NoNewClash(sc: Scenario, c: Coalition, p: Params, mid: StoreState, mid': StoreState)
    requires GroupEffect(sc, c, p, mid, mid') && FundsEffect(c, p, mid, mid')
    requires NoNameClash(mid) && OnlyOwnGroups(c, mid, mid')
    requires p.Deploy? ==> p.reserveId in mid.reserves && mid.reserves[p.reserveId].coalition == c
    ensures NoNameClash(mid')
  {
    forall r | r in mid'.reserves && DeployedId(r) in mid'.active && DeployedId(r) !in mid.active
      ensures p.Deploy? && p.reserveId == r
    {
      NewGroupIsDeployed(sc, c, p, mid, mid', DeployedId(r));
      DeployedIdInjective(r, p.reserveId);
    }
  }

  lemma NewGroupIsDeployed(sc: Scenario, c: Coalition, p: Params, mid: StoreState, mid': StoreState, g: string)
    requires GroupEffect(sc, c, p, mid, mid') && g in mid'.active && g !in mid.active
    ensures p.Deploy? && g == DeployedId(p.reserveId)
  {
  }

  lemma FundsOfOtherSideStay(c: Coalition, d: Coalition, p: Params, mid: StoreState, mid': StoreState)
    requires FundsEffect(c, p, mid, mid') && d != c
    requires p.Deploy? && p.reserveId in mid.reserves ==> mid.reserves[p.reserveId].coalition == c
    ensures HoldingsOf(mid', d).budget == HoldingsOf(mid, d).budget
    ensures HoldingsOf(mid', d).reserves == HoldingsOf(mid, d).reserves
  {
  }

  lemma OrdersOfOtherSideStay(c: Coalition, d: Coalition, mid: StoreState, mid': StoreState)
    requires OnlyOwnOrders(c, mid.orders, mid'.orders) && d != c
    ensures HoldingsOf(mid', d).orders == HoldingsOf(mid, d).orders
  {
  }

  lemma HoldingsStay(
      sc: Scenario, st: StoreState, mid: StoreState, mid': StoreState, c: Coalition, d: Coalition,
      known: Option<seq<KnownControlPoint>>, p: Params)
    requires c in st.budgets && Legal(sc, ContextOf(st, c, known), p) && d != c
    requires Grown(st, mid) && GroupEffect(sc, c, p, mid, mid') && FundsEffect(c, p, mid, mid')
    requires OnlyOwnOrders(c, mid.orders, mid'.orders) && SameOwners(st, mid) && NoNameClash(mid)
    ensures HoldingsOf(mid', d) == HoldingsOf(mid, d)
  {
    hide GroupEffect, NoNameClash, SameOwners, OnlyOwnOrders, FundsEffect;
    OwnersStay(sc, st, mid, mid', c, known, p);
    OrdersOfOtherSideStay(c, d, mid, mid');
    FundsOfOtherSideStay(c, d, p, mid, mid');
    assert HoldingsOf(mid', d).active == HoldingsOf(mid, d).active;
  }

  /** Every group row is stored under its own id. */
  ghost predicate KeyedById(st: StoreState) {
    forall g <- st.active :: st.active[g].id == g
  }

  /** The world records of d's groups are the same. */
  ghost predicate SameWorldOf(st: StoreState, st': StoreState, d: Coalition) {
    forall g <- st.active :: st.active[g].coalition == d ==> SameWorld(st, st', g)
  }

  lemma KeysStay(sc: Scenario, c: Coalition, p: Params, st: StoreState, st': StoreState)
    requires GroupEffect(sc, c, p, st, st') && KeyedById(st)
    ensures KeyedById(st')
  {
    hide Target, MovementGroups, DeployedId;
  }

  lemma WorldOfOtherSideStays(
      sc: Scenario, st: StoreState, mid: StoreState, mid': StoreState, c: Coalition, d: Coalition,
      known: Option<seq<KnownControlPoint>>, p: Params)
    requires c in st.budgets && Legal(sc, ContextOf(st, c, known), p) && d != c
    requires Grown(st, mid) && GroupEffect(sc, c, p, mid, mid') && SameOwners(st, mid) && NoNameClash(mid)
    ensures SameWorldOf(mid, mid', d)
  {
    NamedGroupsAreOwned(sc, ContextOf(st, c, known), p);
    assert p.Deploy? ==> p.reserveId in mid.reserves && mid.reserves[p.reserveId].coalition == c;
    assert forall g <- MovementGroups(p) :: g in mid.active ==> mid.active[g].coalition == c;
    hide Legal;
    EffectOnOtherWorld(sc, c, d, p, mid, mid');
  }

  lemma EffectOnOtherWorld(sc: Scenario, c: Coalition, d: Coalition, p: Params, mid: StoreState, mid': StoreState)
    requires GroupEffect(sc, c, p, mid, mid') && d != c
    requires forall g <- MovementGroups(p) :: g in mid.active ==> mid.active[g].coalition == c
    requires p.Deploy? && DeployedId(p.reserveId) in mid.active ==> mid.active[DeployedId(p.reserveId)].coalition == c
    ensures SameWorldOf(mid, mid', d)
  {
    hide Target, MovementGroups, DeployedId, MovedGroup;
  }

  lemma SameWorldOfTrans(st: StoreState, mid: StoreState, end: StoreState, d: Coalition)
    requires SameWorldOf(st, mid, d) && SameWorldOf(mid, end, d) && SameOwners(st, mid)
    ensures SameWorldOf(st, end, d)
  {
  }

  lemma {:induction false} BatchFrame(
      sc: Scenario, sim: Simulator, env: Env, c: Coalition, d: Coalition, known: Option<seq<KnownControlPoint>>,
      vs: seq<Verdict>, now: int)
    requires ReferencesResolve(sc) && c in env.store.budgets && OrdersOk(env.store.orders)
    requires forall v <- vs :: Candidate(v) ==>
      WellFormed(v.params.value) && Legal(sc, ContextOf(env.store, c, known), v.params.value)
    requires NoNameClash(env.store) && d != c
    ensures var end := ExecuteBatch(sc, sim, env, c, vs, now).env.store;
      && HoldingsOf(end, d) == HoldingsOf(env.store, d) && NoNameClash(end) && SameOwners(env.store, end)
      && SameWorldOf(env.store, end, d) && (KeyedById(env.store) ==> KeyedById(end))
  {
    if vs != [] {
      hide ExecuteBatch, Effect, NoNameClash, SameOwners, Legal, WellFormed, HoldingsOf, SameWorldOf, KeyedById;
      var v := vs[|vs| - 1];
      BatchFrame(sc, sim, env, c, d, known, vs[..|vs| - 1], now);
      var mid, end := BatchLastStep(sc, sim, env, c, known, vs, now);
      if Candidate(v) {
        EffectParts(sc, c, v.params.value, mid, end);
        OwnersStay(sc, env.store, mid, end, c, known, v.params.value);
        HoldingsStay(sc, env.store, mid, end, c, d, known, v.params.value);
        WorldOfOtherSideStays(sc, env.store, mid, end, c, d, known, v.params.value);
        SameWorldOfTrans(env.store, mid, end, d);
        if KeyedById(mid) {
          KeysStay(sc, c, v.params.value, mid, end);
        }
      }
    }
  }

  lemma EffectParts(sc: Scenario, c: Coalition, p: Params, st: StoreState, st': StoreState)
    requires Effect(sc, c, p, st, st')
    ensures GroupEffect(sc, c, p, st, st') && OnlyOwnOrders(c, st.orders, st'.orders) && FundsEffect(c, p, st, st')
  {
  }

  lemma TurnFrame(sc: Scenario, sim: Simulator, env: Env, turn: Turn, d: Coalition)
    requires ReferencesResolve(sc) && OrdersOk(env.store.orders) && NoNameClash(env.store)
    requires turn.Command? && turn.coalition != d
    ensures var end := TakeTurn(sc, sim, env, turn).store;
      && HoldingsOf(end, d) == HoldingsOf(env.store, d) && NoNameClash(end)
      && SameWorldOf(env.store, end, d) && (KeyedById(env.store) ==> KeyedById(end))
  {
    hide HoldingsOf, NoNameClash, SameOwners, KeyedById, Vets, ExecuteBatch;
    if Executes(sc, env.store, turn) {
      TurnCompletes(sc, sim, env, turn);
      BatchFrame(sc, sim, env, turn.coalition, d, turn.known, Vets(sc, env.store, turn), turn.now);
    }
  }

  /** Coalition frame over whole runs: however many batches one coalition plays, and whatever
      is ingested in between, the other coalition's budget, reserves, groups and standing
      orders stay exactly as they were. */
  lemma {:induction false} OtherSideUntouched(sc: Scenario, sim: Simulator, env: Env, turns: seq<Turn>, d: Coalition)
    requires ReferencesResolve(sc) && OrdersOk(env.store.orders) && NoNameClash(env.store)
    requires forall t <- turns :: t.Command? ==> t.coalition != d
    ensures var end := Run(sc, sim, env, turns).store;
      HoldingsOf(end, d) == HoldingsOf(env.store, d) && NoNameClash(end)
  {
    if turns != [] {
      var front, turn := turns[..|turns| - 1], turns[|turns| - 1];
      OtherSideUntouched(sc, sim, env, front, d);
      RunKeepsOrders(sc, sim, env, front);
      if turn.Command? {
        hide TakeTurn;
        TurnFrame(sc, sim, Run(sc, sim, env, front), turn, d);
      }
    }
  }

  /** The row of a deployed reserve. */
  function DeployedRow(reserve: ReserveGroup, c: Coalition, p: Params): ActiveGroup
    requires p.Deploy?
  {
    ActiveGroup(DeployedId(p.reserveId), c, reserve.groupType, Defensive, Some(p.targetSectorId), true, "ready", None, 0, 0)
  }

  lemma AcceptedDeploy(sc: Scenario, sim: Simulator, env: Env, c: Coalition, actionId: string, p: Params, now: int)
    requires p.Deploy? && AcceptsAll(sim)
    requires DeployPlan(sc, env.store, c, actionId, p, now).Some? && Steps(sc, c, p, now).Some?
    ensures var plan := DeployPlan(sc, env.store, c, actionId, p, now).value;
      Effective(plan, RunPlan(sim, env, c, plan).1) == 1
    ensures var st' := PerformAll(env.store, Steps(sc, c, p, now).value[..1], now);
      st'.active == env.store.active[DeployedId(p.reserveId) := DeployedRow(env.store.reserves[p.reserveId], c, p)]
  {
    hide OrderId, Contains, PlacedWorldGroup;
    var step := Steps(sc, c, p, now).value[0];
    assert Steps(sc, c, p, now).value[..1] == [step] && [step][..0] == [];
  }

  /** The proviso on names is exact: an accepted deployment leaves the other side's holdings as
      they were if and only if the deployed group does not take over the name of one of its groups. */
  lemma DeployLeavesOtherSideIff(
      sc: Scenario, sim: Simulator, env: Env, c: Coalition, d: Coalition, known: Option<seq<KnownControlPoint>>,
      actionId: string, p: Params, now: int)
    requires ReferencesResolve(sc) && c in env.store.budgets && OrdersOk(env.store.orders) && AcceptsAll(sim)
    requires p.Deploy? && WellFormed(p) && Legal(sc, ContextOf(env.store, c, known), p) && d != c
    ensures BuildPlan(sc, env.store, c, actionId, p, now).Some?
    ensures var st' := RunPlan(sim, env, c, BuildPlan(sc, env.store, c, actionId, p, now).value).0.store;
      var id := DeployedId(p.reserveId);
      HoldingsOf(st', d) == HoldingsOf(env.store, d) <==>
      !(id in env.store.active && env.store.active[id].coalition == d)
  {
    hide RunPlan, WellFormed, Steps, Effect, Effective, PerformAll, HoldingsOf, DeployPlan;
    assert p.reserveId in env.store.reserves && env.store.reserves[p.reserveId].coalition == c;
    hide Legal;
    VettedAction(sc, sim, env, env.store, c, known, actionId, p, now);
    AcceptedDeploy(sc, sim, env, c, actionId, p, now);
    ActionHasEffect(sc, sim, env, c, actionId, p, now);
    var st' := RunPlan(sim, env, c, BuildPlan(sc, env.store, c, actionId, p, now).value).0.store;
    EffectParts(sc, c, p, env.store, st');
    FundsOfOtherSideStay(c, d, p, env.store, st');
    OrdersOfOtherSideStay(c, d, env.store, st');
    OtherGroupsStayIff(sc, c, d, p, env.store, st');
  }

  lemma OtherGroupsStayIff(sc: Scenario, c: Coalition, d: Coalition, p: Params, st: StoreState, st': StoreState)
    requires p.Deploy? && d != c && GroupEffect(sc, c, p, st, st')
    requires DeployedId(p.reserveId) in st'.active && st'.active[DeployedId(p.reserveId)].coalition == c
    ensures HoldingsOf(st', d).active == HoldingsOf(st, d).active <==>
            !(DeployedId(p.reserveId) in st.active && st.active[DeployedId(p.reserveId)].coalition == d)
  {
    hide Target, DeployedId;
    var id := DeployedId(p.reserveId);
    assert st'.active == st.active || st'.active == st.active[id := st'.active[id]];
    hide GroupEffect;
    assert id !in HoldingsOf(st', d).active;
    assert id in HoldingsOf(st, d).active <==> id in st.active && st.active[id].coalition == d;
  }

  // -------------------------------------------------------- restricted sectors

  /** No group of c stands in a sector c may not deploy into. */
  ghost predicate StaysOut(sc: Scenario, st: StoreState, c: Coalition) {
    forall g <- st.active ::
      st.active[g].coalition == c && st.active[g].sectorId.Some? ==> !NoDeploy(sc, c, st.active[g].sectorId.value)
  }

  ghost predicate NoPointRestricted(sc: Scenario, c: Coalition) {
    forall p <- sc.controlPoints :: !NoDeploy(sc, c, p.sectorId)
  }

  /** Groups of the acting coalition stay its own during its batch. */
  ghost predicate OwnStaysOwn(st: StoreState, mid: StoreState, c: Coalition) {
    forall g <- st.active :: st.active[g].coalition == c ==> g in mid.active && mid.active[g].coalition == c
  }

  lemma TargetIsAllowed(sc: Scenario, ctx: Context, p: Params)
    requires ReferencesResolve(sc) && Legal(sc, ctx, p) && Target(sc, p).Some?
    requires NoPointRestricted(sc, ctx.coalition)
    requires MovementGroups(p) != [] || p.Deploy?
    ensures !NoDeploy(sc, ctx.coalition, Target(sc, p).value.0.id)
  {
    if p.Reposition? || p.Withdraw? {
      assert GroupLegal(sc, ctx, p, MovementGroups(p)[0]);
    }
  }

  lemma DeployStaysOut(sc: Scenario, st: StoreState, mid: StoreState, mid': StoreState, actor: Coalition, c: Coalition, p: Params)
    requires p.Deploy? && GroupEffect(sc, actor, p, mid, mid') && OwnStaysOwn(st, mid, actor) && StaysOut(sc, mid, c)
    requires actor == c && Target(sc, p).Some? ==> !NoDeploy(sc, c, Target(sc, p).value.0.id)
    ensures OwnStaysOwn(st, mid', actor) && StaysOut(sc, mid', c)
  {
    hide NoDeploy, Target, DeployedId;
  }

  lemma StaysOutNextAction(
      sc: Scenario, st: StoreState, mid: StoreState, mid': StoreState, actor: Coalition, c: Coalition,
      known: Option<seq<KnownControlPoint>>, p: Params)
    requires ReferencesResolve(sc) && NoPointRestricted(sc, c)
    requires actor in st.budgets && Legal(sc, ContextOf(st, actor, known), p)
    requires GroupEffect(sc, actor, p, mid, mid') && OwnStaysOwn(st, mid, actor) && StaysOut(sc, mid, c)
    ensures OwnStaysOwn(st, mid', actor) && StaysOut(sc, mid', c)
  {
    var ctx := ContextOf(st, actor, known);
    NamedGroupsAreOwned(sc, ctx, p);
    if actor == c && Target(sc, p).Some? && (MovementGroups(p) != [] || p.Deploy?) {
      TargetIsAllowed(sc, ctx, p);
    }
    hide Legal, NoDeploy, Target;
    if p.Deploy? {
      DeployStaysOut(sc, st, mid, mid', actor, c, p);
    } else if p.Reposition? || p.Withdraw? || p.Reinforce? {
      MovementStaysOut(sc, st, mid, mid', actor, c, p);
    }
  }

  lemma MovementStaysOut(sc: Scenario, st: StoreState, mid: StoreState, mid': StoreState, actor: Coalition, c: Coalition, p: Params)
    requires (p.Reposition? || p.Withdraw? || p.Reinforce?) && GroupEffect(sc, actor, p, mid, mid')
    requires OwnStaysOwn(st, mid, actor) && StaysOut(sc, mid, c)
    requires forall g <- MovementGroups(p) :: g in st.active && st.active[g].coalition == actor
    requires actor == c && MovementGroups(p) != [] ==> !NoDeploy(sc, c, Target(sc, p).value.0.id)
    ensures OwnStaysOwn(st, mid', actor) && StaysOut(sc, mid', c)
  {
    var (sector, point) := Target(sc, p).value;
    assert SomeMoved(mid, mid', MovementGroups(p), sector, point, NewPosture(p));
    hide NoDeploy, Target, GroupEffect;
  }

  lemma {:induction false} BatchStaysOut(
      sc: Scenario, sim: Simulator, env: Env, actor: Coalition, c: Coalition, known: Option<seq<KnownControlPoint>>,
      vs: seq<Verdict>, now: int)
    requires ReferencesResolve(sc) && actor in env.store.budgets && OrdersOk(env.store.orders)
    requires forall v <- vs :: Candidate(v) ==>
      WellFormed(v.params.value) && Legal(sc, ContextOf(env.store, actor, known), v.params.value)
    requires NoPointRestricted(sc, c) && StaysOut(sc, env.store, c)
    ensures var end := ExecuteBatch(sc, sim, env, actor, vs, now).env.store;
      OwnStaysOwn(env.store, end, actor) && StaysOut(sc, end, c)
  {
    if vs != [] {
      hide ExecuteBatch, Effect, StaysOut, OwnStaysOwn, Legal, WellFormed;
      var v := vs[|vs| - 1];
      BatchStaysOut(sc, sim, env, actor, c, known, vs[..|vs| - 1], now);
      var mid, end := BatchLastStep(sc, sim, env, actor, known, vs, now);
      if Candidate(v) {
        EffectParts(sc, actor, v.params.value, mid, end);
        StaysOutNextAction(sc, env.store, mid, end, actor, c, known, v.params.value);
      }
    }
  }

  /** Safety of restricted sectors: if no control point lies in a no-deploy sector of c and
      none of its groups starts in one, no run of batches of either side puts one there. */
  lemma {:induction false} RestrictedSectorsStayEmpty(sc: Scenario, sim: Simulator, env: Env, turns: seq<Turn>, c: Coalition)
    requires ReferencesResolve(sc) && OrdersOk(env.store.orders)
    requires NoPointRestricted(sc, c) && StaysOut(sc, env.store, c)
    ensures StaysOut(sc, Run(sc, sim, env, turns).store, c)
  {
    if turns != [] {
      var front, turn := turns[..|turns| - 1], turns[|turns| - 1];
      RestrictedSectorsStayEmpty(sc, sim, env, front, c);
      RunKeepsOrders(sc, sim, env, front);
      var mid := Run(sc, sim, env, front);
      if Executes(sc, mid.store, turn) {
        TurnCompletes(sc, sim, mid, turn);
        BatchStaysOut(sc, sim, mid, turn.coalition, c, turn.known, Vets(sc, mid.store, turn), turn.now);
      }
    }
  }
}
