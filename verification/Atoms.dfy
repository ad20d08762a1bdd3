/** The engine's store writes as a sequence of small independent steps.  Executing a plan is
    shown to be the same as performing a prefix of its steps, one per affected group. */
module Atoms {
  import opened Domain
  import opened Requests
  import opened StateStore
  import opened Planning
  import opened Engine
  import opened Orders

  datatype Atom =
    | Order(order: StandingOrder)
    | Commit(coalition: Coalition, reserveId: string, sector: Sector, order: StandingOrder)
    | Move(groupId: string, sector: Sector, point: Option<string>, newPosture: Option<Posture>, order: StandingOrder)
    | Stance(groupId: string, posture: Posture, order: StandingOrder)

  function PutOrder(st: StoreState, o: StandingOrder): StoreState {
    st.(orders := st.orders[o.id := o])
  }

  function Perform(st: StoreState, a: Atom, now: int): StoreState {
    match a
    case Order(o) => PutOrder(st, o)
    case Stance(g, posture, o) =>
      if g !in st.active then st
      else PutOrder(st.(active := st.active[g := st.active[g].(id := g, posture := posture)]), o)
    case Move(g, sector, point, posture, o) =>
      if g !in st.active then st
      else
        var group := st.active[g];
        PutOrder(
          st.(active := st.active[g := MovedGroup(group, g, sector.id, point, posture)],
              world := st.world[g := PlacedWorldGroup(sector, g, g, group.coalition, group.groupType, point, group.mobile, now)]),
          o)
    case Commit(c, r, sector, o) =>
      if r !in st.reserves then st
      else
        var reserve, id := st.reserves[r], DeployedId(r);
        PutOrder(
          st.(budgets := if c in st.budgets then st.budgets[c := st.budgets[c] - reserve.cost] else st.budgets,
              reserves := st.reserves[r := reserve.(available := false, status := "committed")],
              active := st.active[id := ActiveGroup(id, c, reserve.groupType, Defensive, Some(sector.id), true, "ready", None, 0, 0)],
              world := st.world[id := PlacedWorldGroup(sector, id, r, c, reserve.groupType, None, true, now)]),
          o)
  }

  function PerformAll(st: StoreState, steps: seq<Atom>, now: int): StoreState {
    if steps == [] then st else Perform(PerformAll(st, steps[..|steps| - 1], now), steps[|steps| - 1], now)
  }

  /** The steps of an action; None where the scenario lacks something the plan looks up. */
  function Steps(sc: Scenario, c: Coalition, p: Params, now: int): Option<seq<Atom>> {
    match p
    case Hold(_, _, _) => Some([])
    case Prioritize(s, _) => Some([Order(OrderFor(c, p, s, None, now))])
    case ChangePosture(g, posture) => Some([Stance(g, posture, OrderFor(c, p, g, None, now))])
    case Deploy(r, s, _) =>
      (match FindSector(sc.sectors, s)
       case None => None
       case Some(sector) => Some([Commit(c, r, sector, OrderFor(c, p, DeployedId(r), None, now))]))
    case Reposition(g, t, d) => MoveSteps(sc, c, p, g, t, d, None, now)
    case Withdraw(g, t, d) => MoveSteps(sc, c, p, g, t, d, Some(Fallback), now)
    case Reinforce(cp, gs, _) =>
      (match FindControlPoint(sc.controlPoints, cp)
       case None => None
       case Some(point) =>
         match FindSector(sc.sectors, point.sectorId)
         case None => None
         case Some(sector) => Some(ReinforceSteps(c, p, sector, point, gs, now)))
  }

  function MoveSteps(
      sc: Scenario, c: Coalition, p: Params, g: string, t: DestinationType, d: string, posture: Option<Posture>, now: int): Option<seq<Atom>>
  {
    match ResolveDestination(sc, t, d)
    case None => None
    case Some((sectorId, point)) =>
      match FindSector(sc.sectors, sectorId)
      case None => None
      case Some(sector) => Some([Move(g, sector, point, posture, OrderFor(c, p, g, None, now))])
  }

  function ReinforceSteps(
      c: Coalition, p: Params, sector: Sector, point: ControlPoint, gs: seq<string>, now: int): (r: seq<Atom>)
    ensures |r| == |gs|
    ensures forall i :: 0 <= i < |r| ==>
      r[i] == Move(gs[i], sector, Some(point.id), None, ReinforceOrder(c, p, gs[i], now))
  {
    seq(|gs|, i requires 0 <= i < |gs| => Move(gs[i], sector, Some(point.id), None, ReinforceOrder(c, p, gs[i], now)))
  }

  /** How many steps of the plan take effect with a given result. */
  function Effective(plan: Plan, result: ExecutionResult): nat {
    if result.status == Failed then 0
    else if result.status == PartiallySucceeded then result.commandCount
    else |plan.orders|
  }

  /** Running the plan leaves the tables as a prefix of the steps leaves them. */
  ghost predicate RefinesSteps(sim: Simulator, env: Env, c: Coalition, plan: Plan, steps: seq<Atom>, now: int) {
    var (env', result) := RunPlan(sim, env, c, plan);
    && |plan.orders| == |steps|
    && Effective(plan, result) <= |steps|
    && SameTables(env'.store, PerformAll(env.store, steps[..Effective(plan, result)], now))
  }

  predicate SameTables(a: StoreState, b: StoreState) {
    a.(log := []) == b.(log := [])
  }

  lemma {:induction false} WriteActiveLast(rows: map<string, ActiveGroup>, us: seq<ActiveGroup>, id: string)
    requires forall u <- us :: u.id != id
    ensures id in WriteActive(rows, us) <==> id in rows
    ensures id in rows ==> WriteActive(rows, us)[id] == rows[id]
  {
    if us != [] {
      WriteActiveLast(rows, us[..|us| - 1], id);
    }
  }

  lemma OneActiveRow(rows: map<string, ActiveGroup>, us: seq<ActiveGroup>)
    requires |us| == 1
    ensures WriteActive(rows, us) == rows[us[0].id := us[0]]
  {
    assert us[..0] == [] && WriteActive(rows, us[..0]) == rows;
  }

  lemma OneWorldRow(rows: map<string, WorldGroup>, us: seq<WorldGroup>)
    requires |us| == 1
    ensures WriteWorld(rows, us) == rows[us[0].id := us[0]]
  {
    assert us[..0] == [] && WriteWorld(rows, us[..0]) == rows;
  }

  lemma OneReserveRow(rows: map<string, ReserveGroup>, us: seq<ReserveUpdate>)
    requires |us| == 1
    ensures WriteReserves(rows, us) == WriteReserve(rows, us[0])
  {
    assert us[..0] == [] && WriteReserves(rows, us[..0]) == rows;
  }

  lemma OneOrderRow(rows: map<string, StandingOrder>, os: seq<StandingOrder>)
    requires OrdersOk(rows) && |os| == 1 && OrderOk(os[0])
    ensures UpsertOrders(rows, os) == rows[os[0].id := os[0]]
  {
    assert os[..0] == [] && UpsertOrders(rows, os[..0]) == rows;
    UpsertWritesOneRow(rows, os[0]);
  }

  /** A plan with one order: all of it is written, or none of it. */
  lemma RunSingle(sim: Simulator, env: Env, c: Coalition, plan: Plan)
    requires |plan.orders| == 1 && |plan.commands| <= 1 && plan.actionType != HoldAction
    ensures var (env', result) := RunPlan(sim, env, c, plan);
      var n := Effective(plan, result);
      && n <= 1 && result.status != PartiallySucceeded
      && SameTables(env'.store, if n == 0 then env.store else WriteTables(env.store, c, plan.updates, plan.orders))
  {
  }

  lemma OneStepRefines(sim: Simulator, env: Env, c: Coalition, plan: Plan, step: Atom, now: int)
    requires |plan.orders| == 1 && |plan.commands| <= 1 && plan.actionType != HoldAction
    requires WriteTables(env.store, c, plan.updates, plan.orders) == Perform(env.store, step, now)
    ensures RefinesSteps(sim, env, c, plan, [step], now)
  {
    RunSingle(sim, env, c, plan);
    assert [step][..0] == [] && [step][..1] == [step];
    assert PerformAll(env.store, [step], now) == Perform(env.store, step, now);
  }

  lemma OrderOnlyRefines(sim: Simulator, env: Env, c: Coalition, plan: Plan, now: int)
    requires plan.actionType != HoldAction && plan.commands == [] && |plan.orders| == 1 && plan.updates == NO_UPDATES
    requires OrdersOk(env.store.orders) && OrderOk(plan.orders[0])
    ensures RefinesSteps(sim, env, c, plan, [Order(plan.orders[0])], now)
  {
    OneOrderRow(env.store.orders, plan.orders);
    assert WriteTables(env.store, c, plan.updates, plan.orders).budgets == env.store.budgets;
    OneStepRefines(sim, env, c, plan, Order(plan.orders[0]), now);
  }

  lemma StanceRefines(sim: Simulator, env: Env, c: Coalition, plan: Plan, g: string, posture: Posture, now: int)
    requires plan.actionType != HoldAction && |plan.commands| == 1 && |plan.orders| == 1 && g in env.store.active
    requires plan.updates == NO_UPDATES.(active := [env.store.active[g].(id := g, posture := posture)])
    requires OrdersOk(env.store.orders) && OrderOk(plan.orders[0])
    ensures RefinesSteps(sim, env, c, plan, [Stance(g, posture, plan.orders[0])], now)
  {
    OneOrderRow(env.store.orders, plan.orders);
    OneActiveRow(env.store.active, plan.updates.active);
    assert WriteTables(env.store, c, plan.updates, plan.orders).budgets == env.store.budgets;
    OneStepRefines(sim, env, c, plan, Stance(g, posture, plan.orders[0]), now);
  }

  lemma DeployRefines(sc: Scenario, sim: Simulator, env: Env, c: Coalition, actionId: string, p: Params, now: int)
    requires p.Deploy? && OrdersOk(env.store.orders) && DeployPlan(sc, env.store, c, actionId, p, now).Some?
    ensures FindSector(sc.sectors, p.targetSectorId).Some?
    ensures RefinesSteps(sim, env, c, DeployPlan(sc, env.store, c, actionId, p, now).value,
              [Commit(c, p.reserveId, FindSector(sc.sectors, p.targetSectorId).value,
                      OrderFor(c, p, DeployedId(p.reserveId), None, now))], now)
  {
    hide Contains, OrderId, EntityType;
    var st := env.store;
    var plan := DeployPlan(sc, st, c, actionId, p, now).value;
    var step := Commit(c, p.reserveId, FindSector(sc.sectors, p.targetSectorId).value, plan.orders[0]);
    OrderForIsOk(c, p, DeployedId(p.reserveId), None, now);
    OneOrderRow(st.orders, plan.orders);
    OneActiveRow(st.active, plan.updates.active);
    OneWorldRow(st.world, plan.updates.world);
    OneReserveRow(st.reserves, plan.updates.reserves);
    OneStepRefines(sim, env, c, plan, step, now);
  }

  lemma MovementRefines(
      sc: Scenario, sim: Simulator, env: Env, c: Coalition, actionId: string, p: Params, g: string, t: DestinationType,
      d: string, path: Path, posture: Option<Posture>, now: int)
    requires OrdersOk(env.store.orders) && g != "" && !p.Hold?
    requires MovementPlan(sc, env.store, c, actionId, p, g, t, d, path, posture, now).Some?
    ensures MoveSteps(sc, c, p, g, t, d, posture, now).Some?
    ensures RefinesSteps(sim, env, c, MovementPlan(sc, env.store, c, actionId, p, g, t, d, path, posture, now).value,
                         MoveSteps(sc, c, p, g, t, d, posture, now).value, now)
  {
    hide Contains, OrderId, EntityType;
    var st := env.store;
    var plan := MovementPlan(sc, st, c, actionId, p, g, t, d, path, posture, now).value;
    OrderForIsOk(c, p, g, None, now);
    OneOrderRow(st.orders, plan.orders);
    OneActiveRow(st.active, plan.updates.active);
    OneWorldRow(st.world, plan.updates.world);
    assert WriteTables(st, c, plan.updates, plan.orders).budgets == st.budgets;
    OneStepRefines(sim, env, c, plan, MoveSteps(sc, c, p, g, t, d, posture, now).value[0], now);
  }

  lemma NamesAreNotEmpty(p: Params)
    requires WellFormed(p)
    ensures forall g <- NamedGroups(p) :: g != ""
    ensures p.Prioritize? ==> p.sectorId != ""
    ensures (p.Reposition? || p.Withdraw? || p.ChangePosture?) ==> p.groupId != ""
  {
    assert IsBlank("");
    assert (p.Reposition? || p.Withdraw? || p.ChangePosture?) ==> NamedGroups(p)[0] == p.groupId;
  }

  /** A plan for one group or none: its single step takes effect, or nothing does. */
  lemma SingleStepRefines(sc: Scenario, sim: Simulator, env: Env, c: Coalition, actionId: string, p: Params, now: int)
    requires !p.Reinforce? && WellFormed(p) && OrdersOk(env.store.orders)
    requires BuildPlan(sc, env.store, c, actionId, p, now).Some?
    ensures Steps(sc, c, p, now).Some?
    ensures RefinesSteps(sim, env, c, BuildPlan(sc, env.store, c, actionId, p, now).value, Steps(sc, c, p, now).value, now)
  {
    NamesAreNotEmpty(p);
    var plan := BuildPlan(sc, env.store, c, actionId, p, now).value;
    match p
    case Hold(_, _, _) =>
    case Prioritize(s, _) =>
      OrderForIsOk(c, p, s, None, now);
      OrderOnlyRefines(sim, env, c, plan, now);
    case ChangePosture(g, posture) =>
      OrderForIsOk(c, p, g, None, now);
      StanceRefines(sim, env, c, plan, g, posture, now);
    case Deploy(_, _, _) => DeployRefines(sc, sim, env, c, actionId, p, now);
    case Reposition(g, t, d) => MovementRefines(sc, sim, env, c, actionId, p, g, t, d, RepositionPath, None, now);
    case Withdraw(g, t, d) => MovementRefines(sc, sim, env, c, actionId, p, g, t, d, WithdrawPath, Some(Fallback), now);
  }

  // ------------------------------------------------------------ reinforcements

  lemma {:induction false} OnlyActivePrefix(rows: seq<ActiveGroup>, ids: set<string>, n: nat)
    requires n <= |rows| && forall i :: 0 <= i < |rows| ==> (rows[i].id in ids <==> i < n)
    ensures OnlyActive(rows, ids) == rows[..n]
  {
    if rows != [] {
      var m := |rows| - 1;
      OnlyActivePrefix(rows[..m], ids, if n <= m then n else m);
      assert rows[..m][..if n <= m then n else m] == rows[..if n <= m then n else m];
    }
  }

  lemma {:induction false} OnlyWorldPrefix(rows: seq<WorldGroup>, ids: set<string>, n: nat)
    requires n <= |rows| && forall i :: 0 <= i < |rows| ==> (rows[i].id in ids <==> i < n)
    ensures OnlyWorld(rows, ids) == rows[..n]
  {
    if rows != [] {
      var m := |rows| - 1;
      OnlyWorldPrefix(rows[..m], ids, if n <= m then n else m);
      assert rows[..m][..if n <= m then n else m] == rows[..if n <= m then n else m];
    }
  }

  lemma {:induction false} OnlyOrdersPrefix(rows: seq<StandingOrder>, ids: set<string>, n: nat)
    requires n <= |rows|
    requires forall i :: 0 <= i < |rows| ==> rows[i].entityId.Some? && (rows[i].entityId.value in ids <==> i < n)
    ensures OnlyOrders(rows, ids) == rows[..n]
  {
    if rows != [] {
      var m := |rows| - 1;
      OnlyOrdersPrefix(rows[..m], ids, if n <= m then n else m);
      assert rows[..m][..if n <= m then n else m] == rows[..if n <= m then n else m];
    }
  }

  /** The rows of a reinforcement plan against its steps. */
  ghost predicate RowsMatchSteps(
      st: StoreState, gs: seq<string>, u: StateUpdates, orders: seq<StandingOrder>, steps: seq<Atom>, sector: Sector,
      point: Option<string>, now: int)
  {
    && |gs| == |u.active| == |u.world| == |orders| == |steps|
    && u.budgetDelta == 0 && u.reserves == []
    && forall i :: 0 <= i < |gs| ==>
         && gs[i] in st.active
         && steps[i] == Move(gs[i], sector, point, None, orders[i])
         && u.active[i] == MovedGroup(st.active[gs[i]], gs[i], sector.id, point, None)
         && u.world[i] == PlacedWorldGroup(sector, gs[i], gs[i], st.active[gs[i]].coalition, st.active[gs[i]].groupType,
                                           point, st.active[gs[i]].mobile, now)
  }

  function FirstRows(u: StateUpdates, n: nat): StateUpdates
    requires n <= |u.active| && n <= |u.world|
  {
    u.(active := u.active[..n], world := u.world[..n])
  }

  lemma OneMoreRow(st: StoreState, c: Coalition, u: StateUpdates, orders: seq<StandingOrder>, n: nat)
    requires n < |u.active| && n < |u.world| && n < |orders| && u.budgetDelta == 0 && u.reserves == []
    requires OrdersOk(st.orders) && forall o <- orders :: OrderOk(o)
    ensures var mid := WriteTables(st, c, FirstRows(u, n), orders[..n]);
      WriteTables(st, c, FirstRows(u, n + 1), orders[..n + 1]) ==
      mid.(active := mid.active[u.active[n].id := u.active[n]], world := mid.world[u.world[n].id := u.world[n]],
           orders := mid.orders[orders[n].id := orders[n]])
  {
    hide OrdersOk, OrderOk, UpsertOrder;
    PrefixStep(orders, n);
    PrefixStep(u.active, n);
    PrefixStep(u.world, n);
    UpsertsWriteRows(st.orders, orders[..n + 1]);
  }

  lemma StepWritesRow(
      st: StoreState, mid: StoreState, gs: seq<string>, u: StateUpdates, orders: seq<StandingOrder>, steps: seq<Atom>,
      sector: Sector, point: Option<string>, now: int, n: nat)
    requires RowsMatchSteps(st, gs, u, orders, steps, sector, point, now) && n < |gs|
    requires gs[n] in mid.active && mid.active[gs[n]] == st.active[gs[n]]
    ensures Perform(mid, steps[n], now) ==
            mid.(active := mid.active[u.active[n].id := u.active[n]], world := mid.world[u.world[n].id := u.world[n]],
                 orders := mid.orders[orders[n].id := orders[n]])
  {
    hide Contains;
  }

  /** Performing the first n steps writes exactly the first n rows. */
  lemma {:induction false} StepsWriteRows(
      st: StoreState, c: Coalition, gs: seq<string>, u: StateUpdates, orders: seq<StandingOrder>, steps: seq<Atom>,
      sector: Sector, point: Option<string>, now: int, n: nat)
    requires RowsMatchSteps(st, gs, u, orders, steps, sector, point, now) && n <= |gs|
    requires Distinct(gs) && OrdersOk(st.orders) && forall o <- orders :: OrderOk(o)
    ensures PerformAll(st, steps[..n], now) == WriteTables(st, c, FirstRows(u, n), orders[..n])
  {
    assert |gs| == |u.active| == |u.world| == |orders| == |steps| && u.budgetDelta == 0 && u.reserves == [];
    hide Perform, OrdersOk, OrderOk, WriteTables, FirstRows, RowsMatchSteps;
    if n == 0 {
      NoRows(st, c, u);
      assert steps[..0] == [] && orders[..0] == [];
    } else {
      StepsWriteRows(st, c, gs, u, orders, steps, sector, point, now, n - 1);
      RowStillThere(st, c, gs, u, orders, steps, sector, point, now, n - 1);
      StepWritesRow(st, PerformAll(st, steps[..n - 1], now), gs, u, orders, steps, sector, point, now, n - 1);
      OneMoreRow(st, c, u, orders, n - 1);
      PrefixStep(steps, n - 1);
    }
  }

  lemma NoRows(st: StoreState, c: Coalition, u: StateUpdates)
    requires u.budgetDelta == 0 && u.reserves == []
    ensures WriteTables(st, c, FirstRows(u, 0), []) == st
  {
    assert u.active[..0] == [] && u.world[..0] == [];
  }

  lemma RowStillThere(
      st: StoreState, c: Coalition, gs: seq<string>, u: StateUpdates, orders: seq<StandingOrder>, steps: seq<Atom>,
      sector: Sector, point: Option<string>, now: int, n: nat)
    requires RowsMatchSteps(st, gs, u, orders, steps, sector, point, now) && n < |gs| && Distinct(gs)
    ensures var mid := WriteTables(st, c, FirstRows(u, n), orders[..n]);
      gs[n] in mid.active && mid.active[gs[n]] == st.active[gs[n]]
  {
    hide PlacedWorldGroup, UpsertOrders;
    WriteActiveLast(st.active, u.active[..n], gs[n]);
  }

  lemma EffectiveRows(plan: Plan, result: ExecutionResult, gs: seq<string>, n: nat)
    requires plan.actionType == ReinforceControlPoint && Distinct(gs)
    requires |plan.commands| == |plan.orders| == |plan.updates.active| == |plan.updates.world| == |gs|
    requires plan.updates.budgetDelta == 0 && plan.updates.reserves == []
    requires forall i :: 0 <= i < |gs| ==>
      && PayloadGroup(plan.commands[i].request.payload) == Some(gs[i])
      && plan.orders[i].entityId == Some(gs[i]) && plan.updates.active[i].id == gs[i] && plan.updates.world[i].id == gs[i]
    requires result.status == PartiallySucceeded && n <= |gs| && result.applied == plan.commands[..n]
    ensures EffectiveUpdates(plan, result) == FirstRows(plan.updates, n)
    ensures EffectiveOrders(plan, result) == plan.orders[..n]
  {
    var ids := CommandGroups(result.applied);
    forall i | 0 <= i < |gs| ensures gs[i] in ids <==> i < n {
      if i < n {
        assert plan.commands[..n][i] in result.applied;
      }
      if gs[i] in ids {
        var command :| command in result.applied && PayloadGroup(command.request.payload) == Some(gs[i]);
        var j :| 0 <= j < n && plan.commands[j] == command;
        assert gs[j] == gs[i];
      }
    }
    OnlyActivePrefix(plan.updates.active, ids, n);
    OnlyWorldPrefix(plan.updates.world, ids, n);
    OnlyOrdersPrefix(plan.orders, ids, n);
  }

  lemma RunReinforcement(sim: Simulator, env: Env, c: Coalition, plan: Plan, gs: seq<string>)
    requires plan.actionType == ReinforceControlPoint && Distinct(gs) && gs != []
    requires |plan.commands| == |plan.orders| == |plan.updates.active| == |plan.updates.world| == |gs|
    requires plan.updates.budgetDelta == 0 && plan.updates.reserves == []
    requires forall i :: 0 <= i < |gs| ==>
      && PayloadGroup(plan.commands[i].request.payload) == Some(gs[i])
      && plan.orders[i].entityId == Some(gs[i]) && plan.updates.active[i].id == gs[i] && plan.updates.world[i].id == gs[i]
    ensures var (env', result) := RunPlan(sim, env, c, plan);
      var n := Effective(plan, result);
      n <= |gs| && SameTables(env'.store, WriteTables(env.store, c, FirstRows(plan.updates, n), plan.orders[..n]))
  {
    hide Contains, OrderId, EntityType, PlacedWorldGroup;
    var (env', result) := RunPlan(sim, env, c, plan);
    var n := Effective(plan, result);
    if result.status == PartiallySucceeded {
      EffectiveRows(plan, result, gs, n);
    } else if result.status == Failed {
      assert plan.orders[..0] == [] && plan.updates.active[..0] == [] && plan.updates.world[..0] == [];
      assert env.store.budgets == WriteTables(env.store, c, FirstRows(plan.updates, 0), []).budgets;
    } else {
      assert plan.orders[..n] == plan.orders && FirstRows(plan.updates, n) == plan.updates by {
        assert plan.updates.active[..n] == plan.updates.active && plan.updates.world[..n] == plan.updates.world;
      }
    }
  }

  lemma {:induction false} ReinforceOrdersOk(c: Coalition, p: Params, now: int, n: nat)
    requires p.Reinforce? && WellFormed(p) && n <= |p.groupIds|
    ensures forall o <- ReinforceOrders(c, p, now, n) :: OrderOk(o)
  {
    if n > 0 {
      ReinforceOrdersOk(c, p, now, n - 1);
      NamesAreNotEmpty(p);
      var g := p.groupIds[n - 1];
      assert g in NamedGroups(p);
      OrderForIsOk(c, p, g, Some(g), now);
    }
  }

  lemma RowsRefine(
      sim: Simulator, env: Env, c: Coalition, plan: Plan, gs: seq<string>, steps: seq<Atom>, sector: Sector,
      point: Option<string>, now: int)
    requires plan.actionType == ReinforceControlPoint && Distinct(gs) && gs != [] && |plan.commands| == |gs|
    requires RowsMatchSteps(env.store, gs, plan.updates, plan.orders, steps, sector, point, now)
    requires forall i :: 0 <= i < |gs| ==>
      PayloadGroup(plan.commands[i].request.payload) == Some(gs[i]) && plan.orders[i].entityId == Some(gs[i])
    requires OrdersOk(env.store.orders) && forall o <- plan.orders :: OrderOk(o)
    ensures RefinesSteps(sim, env, c, plan, steps, now)
  {
    RunReinforcement(sim, env, c, plan, gs);
    StepsWriteRows(env.store, c, gs, plan.updates, plan.orders, steps, sector, point, now,
                   Effective(plan, RunPlan(sim, env, c, plan).1));
  }

  /** A reinforcement: the groups of the accepted command prefix move, in order, and no others. */
  lemma ReinforceRefines(sc: Scenario, sim: Simulator, env: Env, c: Coalition, actionId: string, p: Params, now: int)
    requires p.Reinforce? && WellFormed(p) && OrdersOk(env.store.orders)
    requires ReinforcePlan(sc, env.store, c, actionId, p, now).Some?
    ensures Steps(sc, c, p, now).Some?
    ensures RefinesSteps(sim, env, c, ReinforcePlan(sc, env.store, c, actionId, p, now).value, Steps(sc, c, p, now).value, now)
  {
    hide Contains, OrderId, EntityType, PlacedWorldGroup, MovedGroup, OrdersOk, OrderOk, RefinesSteps;
    var gs := p.groupIds;
    assert gs != [];
    var plan := ReinforcePlan(sc, env.store, c, actionId, p, now).value;
    var point := FindControlPoint(sc.controlPoints, p.controlPointId).value;
    var sector := FindSector(sc.sectors, point.sectorId).value;
    var steps := ReinforceSteps(c, p, sector, point, gs, now);
    assert Steps(sc, c, p, now) == Some(steps);
    ReinforceOrdersOk(c, p, now, |gs|);
    assert RowsMatchSteps(env.store, gs, plan.updates, plan.orders, steps, sector, Some(point.id), now);
    hide RowsMatchSteps, ReinforcePlan, Steps, WellFormed;
    RowsRefine(sim, env, c, plan, gs, steps, sector, Some(point.id), now);
  }

  // -------------------------------------------------------------- any action

  /** The refinement: executing an action performs a prefix of its steps, nothing else. */
  lemma ActionRefines(sc: Scenario, sim: Simulator, env: Env, c: Coalition, actionId: string, p: Params, now: int)
    requires WellFormed(p) && OrdersOk(env.store.orders)
    requires BuildPlan(sc, env.store, c, actionId, p, now).Some?
    ensures Steps(sc, c, p, now).Some?
    ensures RefinesSteps(sim, env, c, BuildPlan(sc, env.store, c, actionId, p, now).value, Steps(sc, c, p, now).value, now)
  {
    if p.Reinforce? {
      ReinforceRefines(sc, sim, env, c, actionId, p, now);
    } else {
      SingleStepRefines(sc, sim, env, c, actionId, p, now);
    }
  }
}
