/** What one executed action can do to groups, world records and orders, table by table. */
module Effects {
  import opened Domain
  import opened Requests
  import opened StateStore
  import opened Planning
  import opened Engine
  import opened Orders
  import opened Atoms
  import opened Batches

  /** Sector and control point a movement or deployment ends at. */
  function Target(sc: Scenario, p: Params): Option<(Sector, Option<string>)> {
    match p
    case Reposition(_, t, d) => DestinationOf(sc, t, d)
    case Withdraw(_, t, d) => DestinationOf(sc, t, d)
    case Reinforce(cp, _, _) => DestinationOf(sc, ToControlPoint, cp)
    case Deploy(_, s, _) => DestinationOf(sc, ToSector, s)
    case _ => None
  }

  function DestinationOf(sc: Scenario, t: DestinationType, d: string): (r: Option<(Sector, Option<string>)>)
    ensures r.Some? ==> ResolveDestination(sc, t, d) == Some((r.value.0.id, r.value.1))
    ensures r.Some? ==> FindSector(sc.sectors, r.value.0.id) == Some(r.value.0)
  {
    match ResolveDestination(sc, t, d)
    case None => None
    case Some((sectorId, point)) =>
      match FindSector(sc.sectors, sectorId)
      case None => None
      case Some(sector) => Some((sector, point))
  }

  function NewPosture(p: Params): Option<Posture> {
    if p.Withdraw? then Some(Fallback) else None
  }

  ghost predicate SameWorld(st: StoreState, st': StoreState, g: string) {
    (g in st.world <==> g in st'.world) && (g in st.world ==> st'.world[g] == st.world[g])
  }

  /** Some of the named groups were moved to the same place, together with their world records. */
  ghost predicate SomeMoved(
      st: StoreState, st': StoreState, gs: seq<string>, sector: Sector, point: Option<string>, posture: Option<Posture>)
  {
    && st'.active.Keys == st.active.Keys
    && (forall g <- st.active :: SameGroup(st, st', g) || (g in gs && GroupMoved(st, st', g, sector, point, posture)))
    && (forall g :: g !in st.active ==> SameWorld(st, st', g))
  }

  ghost predicate SameGroup(st: StoreState, st': StoreState, g: string)
    requires g in st.active && g in st'.active
  {
    st'.active[g] == st.active[g] && SameWorld(st, st', g)
  }

  ghost predicate GroupMoved(
      st: StoreState, st': StoreState, g: string, sector: Sector, point: Option<string>, posture: Option<Posture>)
    requires g in st.active && g in st'.active
  {
    && st'.active[g] == MovedGroup(st.active[g], g, sector.id, point, posture)
    && g in st'.world && st'.world[g].sectorId == Some(sector.id)
    && st'.world[g].coalition == Some(st.active[g].coalition)
  }

  ghost predicate GroupEffect(sc: Scenario, c: Coalition, p: Params, st: StoreState, st': StoreState) {
    match p
    case Hold(_, _, _) => st'.active == st.active && st'.world == st.world
    case Prioritize(_, _) => st'.active == st.active && st'.world == st.world
    case ChangePosture(g, posture) =>
      && st'.world == st.world
      && (st'.active == st.active
          || (g in st.active && st'.active == st.active[g := st.active[g].(id := g, posture := posture)]))
    case Deploy(r, _, _) =>
      var id := DeployedId(r);
      || (st'.active == st.active && st'.world == st.world && st'.reserves == st.reserves)
      || (&& Target(sc, p).Some? && r in st.reserves && id in st'.active && id in st'.world
          && st'.active == st.active[id := st'.active[id]] && st'.world == st.world[id := st'.world[id]]
          && st'.active[id].id == id && st'.active[id].coalition == c && st'.active[id].controlPointId == None
          && st'.active[id].sectorId == st'.world[id].sectorId == Some(Target(sc, p).value.0.id)
          && st'.reserves == st.reserves[r := st.reserves[r].(available := false, status := "committed")])
    case _ =>
      && Target(sc, p).Some?
      && SomeMoved(st, st', MovementGroups(p), Target(sc, p).value.0, Target(sc, p).value.1, NewPosture(p))
  }

  /** Orders of the other coalition are left alone. */
  ghost predicate OnlyOwnOrders(c: Coalition, orders: map<string, StandingOrder>, orders': map<string, StandingOrder>) {
    && (forall id <- orders' :: (id in orders && orders'[id] == orders[id]) || orders'[id].coalition == c)
    && (forall id <- orders :: id in orders' && (orders'[id] == orders[id] || orders[id].coalition == c))
  }

  /** Money and reserves of the other coalition are left alone. */
  ghost predicate FundsEffect(c: Coalition, p: Params, st: StoreState, st': StoreState) {
    && st'.budgets.Keys == st.budgets.Keys && st'.reserves.Keys == st.reserves.Keys
    && (forall d <- st.budgets :: d != c ==> st'.budgets[d] == st.budgets[d])
    && (forall r <- st.reserves ::
          st'.reserves[r] == st.reserves[r]
          || (p.Deploy? && r == p.reserveId && st'.reserves[r] == st.reserves[r].(available := false, status := "committed")))
  }

  ghost predicate Effect(sc: Scenario, c: Coalition, p: Params, st: StoreState, st': StoreState) {
    GroupEffect(sc, c, p, st, st') && OnlyOwnOrders(c, st.orders, st'.orders) && FundsEffect(c, p, st, st')
  }

  // --------------------------------------------------------------------- proofs

  /** Moving one more of the groups, seen on two tables. */
  lemma MovedAlso(
      st: StoreState, mid: StoreState, st': StoreState, gs: seq<string>, g: string, sector: Sector, point: Option<string>,
      posture: Option<Posture>)
    requires SomeMoved(st, mid, gs, sector, point, posture)
    requires g in gs && g in st.active && g in st'.active && g in st'.world
    requires st'.active == mid.active[g := st'.active[g]] && st'.world == mid.world[g := st'.world[g]]
    requires GroupMoved(st, st', g, sector, point, posture)
    ensures SomeMoved(st, st', gs, sector, point, posture)
  {
    hide MovedGroup;
    forall h | h in st.active && h != g
      ensures SameGroup(st, st', h) || (h in gs && GroupMoved(st, st', h, sector, point, posture))
    {
      assert SameGroup(st, mid, h) || GroupMoved(st, mid, h, sector, point, posture);
    }
  }

  lemma MoveOne(
      st: StoreState, mid: StoreState, gs: seq<string>, a: Atom, sector: Sector, point: Option<string>,
      posture: Option<Posture>, now: int)
    requires SomeMoved(st, mid, gs, sector, point, posture)
    requires a.Move? && a.groupId in gs && a.sector == sector && a.point == point && a.newPosture == posture
    ensures SomeMoved(st, Perform(mid, a, now), gs, sector, point, posture)
  {
    hide Contains;
    var g, st' := a.groupId, Perform(mid, a, now);
    if g in mid.active {
      assert SameGroup(st, mid, g) || GroupMoved(st, mid, g, sector, point, posture);
      hide MovedGroup, SomeMoved;
      MovedAlso(st, mid, st', gs, g, sector, point, posture);
    } else {
      assert st' == mid;
    }
  }

  lemma {:induction false} MoveSome(
      st: StoreState, gs: seq<string>, steps: seq<Atom>, sector: Sector, point: Option<string>, posture: Option<Posture>, now: int)
    requires forall a <- steps ::
      a.Move? && a.groupId in gs && a.sector == sector && a.point == point && a.newPosture == posture
    ensures var st' := PerformAll(st, steps, now);
      SomeMoved(st, st', gs, sector, point, posture) && st'.budgets == st.budgets && st'.reserves == st.reserves
  {
    if steps != [] {
      var front, last := steps[..|steps| - 1], steps[|steps| - 1];
      MoveSome(st, gs, front, sector, point, posture, now);
      MoveOne(st, PerformAll(st, front, now), gs, last, sector, point, posture, now);
    }
  }

  /** The steps of a movement all go to its target. */
  lemma MovementStepsTarget(sc: Scenario, c: Coalition, p: Params, now: int)
    requires (p.Reposition? || p.Withdraw? || p.Reinforce?) && Steps(sc, c, p, now).Some?
    ensures Target(sc, p).Some?
    ensures forall a <- Steps(sc, c, p, now).value ::
      a.Move? && a.groupId in MovementGroups(p) && a.sector == Target(sc, p).value.0
      && a.point == Target(sc, p).value.1 && a.newPosture == NewPosture(p)
  {
    if p.Reinforce? {
      var steps, gs := Steps(sc, c, p, now).value, p.groupIds;
      forall a | a in steps ensures a.Move? && a.groupId in gs && a.sector == Target(sc, p).value.0
                                    && a.point == Target(sc, p).value.1 && a.newPosture == None {
        var i :| 0 <= i < |steps| && steps[i] == a;
        assert gs[i] in gs;
      }
    }
  }

  lemma MovementStepsEffect(sc: Scenario, c: Coalition, p: Params, st: StoreState, n: nat, now: int)
    requires (p.Reposition? || p.Withdraw? || p.Reinforce?)
    requires Steps(sc, c, p, now).Some? && n <= |Steps(sc, c, p, now).value|
    ensures var st' := PerformAll(st, Steps(sc, c, p, now).value[..n], now);
      GroupEffect(sc, c, p, st, st') && FundsEffect(c, p, st, st')
  {
    hide Steps, Target, SomeMoved;
    var steps := Steps(sc, c, p, now).value;
    MovementStepsTarget(sc, c, p, now);
    assert forall a <- steps[..n] :: a in steps;
    var (sector, point) := Target(sc, p).value;
    MoveSome(st, MovementGroups(p), steps[..n], sector, point, NewPosture(p), now);
  }

  lemma OneStepEffect(sc: Scenario, c: Coalition, p: Params, st: StoreState, now: int)
    requires !(p.Reposition? || p.Withdraw? || p.Reinforce? || p.Hold?) && Steps(sc, c, p, now).Some?
    ensures var st' := Perform(st, Steps(sc, c, p, now).value[0], now);
      GroupEffect(sc, c, p, st, st') && FundsEffect(c, p, st, st')
  {
    hide Contains, OrderFor;
  }

  lemma NoEffect(sc: Scenario, c: Coalition, p: Params, st: StoreState)
    requires !(p.Reposition? || p.Withdraw? || p.Reinforce?)
    ensures GroupEffect(sc, c, p, st, st) && FundsEffect(c, p, st, st)
  {
    hide Target;
  }

  lemma OtherStepsEffect(sc: Scenario, c: Coalition, p: Params, st: StoreState, n: nat, now: int)
    requires !(p.Reposition? || p.Withdraw? || p.Reinforce?)
    requires Steps(sc, c, p, now).Some? && n <= |Steps(sc, c, p, now).value|
    ensures var st' := PerformAll(st, Steps(sc, c, p, now).value[..n], now);
      GroupEffect(sc, c, p, st, st') && FundsEffect(c, p, st, st')
  {
    hide GroupEffect, FundsEffect, Perform, PerformAll, OrderFor;
    FewSteps(st, Steps(sc, c, p, now).value, n, now);
    NoEffect(sc, c, p, st);
    if n == 1 {
      OneStepEffect(sc, c, p, st, now);
    }
  }

  lemma StepsHaveGroupEffect(sc: Scenario, c: Coalition, p: Params, st: StoreState, n: nat, now: int)
    requires Steps(sc, c, p, now).Some? && n <= |Steps(sc, c, p, now).value|
    ensures var st' := PerformAll(st, Steps(sc, c, p, now).value[..n], now);
      GroupEffect(sc, c, p, st, st') && FundsEffect(c, p, st, st')
  {
    hide *;
    if p.Reposition? || p.Withdraw? || p.Reinforce? {
      MovementStepsEffect(sc, c, p, st, n, now);
    } else {
      OtherStepsEffect(sc, c, p, st, n, now);
    }
  }

  lemma FewSteps(st: StoreState, steps: seq<Atom>, n: nat, now: int)
    requires |steps| <= 1 && n <= |steps|
    ensures PerformAll(st, steps[..n], now) == if n == 0 then st else Perform(st, steps[0], now)
  {
    if n == 1 {
      assert steps[..1] == steps && steps[..0] == [];
    }
  }

  lemma OwnOrderStep(c: Coalition, p: Params, st: StoreState, mid: StoreState, a: Atom, now: int)
    requires OrdersOk(mid.orders) && OnlyOwnOrders(c, st.orders, mid.orders) && OwnOrder(a, c, p)
    ensures OnlyOwnOrders(c, st.orders, Perform(mid, a, now).orders)
  {
    hide Contains, OrderId, EntityType, PlacedWorldGroup, MovedGroup;
    var o := a.order;
    if o.id in mid.orders {
      OrderIdInjective(mid.orders[o.id].coalition, mid.orders[o.id].actionType, mid.orders[o.id].entityId,
                       o.coalition, o.actionType, o.entityId);
    }
  }

  lemma {:induction false} StepsTouchOwnOrders(c: Coalition, p: Params, st: StoreState, steps: seq<Atom>, now: int)
    requires OrdersOk(st.orders) && forall a <- steps :: OwnOrder(a, c, p)
    ensures var st' := PerformAll(st, steps, now);
      OrdersOk(st'.orders) && OnlyOwnOrders(c, st.orders, st'.orders)
  {
    if steps != [] {
      var front, last := steps[..|steps| - 1], steps[|steps| - 1];
      StepsTouchOwnOrders(c, p, st, front, now);
      OwnOrderStep(c, p, st, PerformAll(st, front, now), last, now);
      OrdersStep(PerformAll(st, front, now), last, now);
    }
  }

  /** Whatever the simulator answers, an executed action has only these effects. */
  lemma ActionHasEffect(
      sc: Scenario, sim: Simulator, env: Env, c: Coalition, actionId: string, p: Params, now: int)
    requires WellFormed(p) && OrdersOk(env.store.orders)
    requires BuildPlan(sc, env.store, c, actionId, p, now).Some?
    ensures var (env', _) := RunPlan(sim, env, c, BuildPlan(sc, env.store, c, actionId, p, now).value);
      Effect(sc, c, p, env.store, env'.store)
  {
    hide GroupEffect, FundsEffect, OnlyOwnOrders, BuildPlan;
    ActionRefines(sc, sim, env, c, actionId, p, now);
    var plan := BuildPlan(sc, env.store, c, actionId, p, now).value;
    var steps := Steps(sc, c, p, now).value;
    var n := Effective(plan, RunPlan(sim, env, c, plan).1);
    var st' := RunPlan(sim, env, c, plan).0.store;
    var ideal := PerformAll(env.store, steps[..n], now);
    StepsHaveGroupEffect(sc, c, p, env.store, n, now);
    StepOrdersOk(sc, c, p, now);
    assert forall a <- steps[..n] :: a in steps;
    StepsTouchOwnOrders(c, p, env.store, steps[..n], now);
    assert SameTables(st', ideal);
    EffectIgnoresLog(sc, c, p, env.store, ideal, st');
  }

  lemma EffectIgnoresLog(sc: Scenario, c: Coalition, p: Params, st: StoreState, ideal: StoreState, st': StoreState)
    requires Effect(sc, c, p, st, ideal) && SameTables(st', ideal)
    ensures Effect(sc, c, p, st, st')
  {
    hide Target, MovementGroups, NewPosture, MovedGroup, DeployedId, SomeMoved;
    if p.Reposition? || p.Withdraw? || p.Reinforce? {
      var (sector, point) := Target(sc, p).value;
      SomeMovedIgnoresLog(st, ideal, st', MovementGroups(p), sector, point, NewPosture(p));
    }
  }

  lemma SomeMovedIgnoresLog(
      st: StoreState, ideal: StoreState, st': StoreState, gs: seq<string>, sector: Sector, point: Option<string>,
      posture: Option<Posture>)
    requires SomeMoved(st, ideal, gs, sector, point, posture) && SameTables(st', ideal)
    ensures SomeMoved(st, st', gs, sector, point, posture)
  {
    hide MovedGroup;
  }
}
