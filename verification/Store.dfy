/** The state store: its tables as maps keyed by primary key, and the one write path the
    execution engine uses. */
module StateStore {
  import opened Domain

  /** The digest of an order is treated as injective, so it is modelled by what is digested:
      action type, entity and parameters (for reinforcements extended by the member group). */
  datatype Fingerprint = Fingerprint(
    actionType: ActionType, entityId: Option<string>, params: Params, member: Option<string>)

  datatype StandingOrder = StandingOrder(
    id: string, coalition: Coalition, actionType: ActionType, entityType: string,
    entityId: Option<string>, fingerprint: Fingerprint, active: bool, lastUpdatedAt: int)

  datatype ReserveUpdate = ReserveUpdate(reserveId: string, available: bool, status: string)

  datatype StateUpdates = StateUpdates(
    budgetDelta: int, reserves: seq<ReserveUpdate>, active: seq<ActiveGroup>, world: seq<WorldGroup>)

  const NO_UPDATES := StateUpdates(0, [], [], [])

  /** The "execution_state_applied" rows of the event log. */
  datatype Event = Event(
    actionId: string, actionType: ActionType, status: ExecutionStatus, budgetDelta: int, orderCount: nat)

  datatype StoreState = StoreState(
    budgets: map<Coalition, int>, reserves: map<string, ReserveGroup>, active: map<string, ActiveGroup>,
    world: map<string, WorldGroup>, orders: map<string, StandingOrder>, log: seq<Event>)

  // --------------------------------------------------------------- row updates

  function WriteReserve(rows: map<string, ReserveGroup>, u: ReserveUpdate): map<string, ReserveGroup> {
    if u.reserveId in rows then rows[u.reserveId := rows[u.reserveId].(available := u.available, status := u.status)]
    else rows
  }

  function WriteReserves(rows: map<string, ReserveGroup>, us: seq<ReserveUpdate>): map<string, ReserveGroup> {
    if us == [] then rows else WriteReserve(WriteReserves(rows, us[..|us| - 1]), us[|us| - 1])
  }

  function WriteActive(rows: map<string, ActiveGroup>, us: seq<ActiveGroup>): map<string, ActiveGroup> {
    if us == [] then rows else WriteActive(rows, us[..|us| - 1])[us[|us| - 1].id := us[|us| - 1]]
  }

  function WriteWorld(rows: map<string, WorldGroup>, us: seq<WorldGroup>): map<string, WorldGroup> {
    if us == [] then rows else WriteWorld(rows, us[..|us| - 1])[us[|us| - 1].id := us[|us| - 1]]
  }

  predicate SameSubject(a: StandingOrder, b: StandingOrder) {
    && a.coalition == b.coalition && a.actionType == b.actionType && a.entityType == b.entityType
    && Coalesce(a.entityId) == Coalesce(b.entityId)
  }

  function Coalesce(id: Option<string>): string {
    if id.Some? then id.value else ""
  }

  /** Deactivates every other order on the same subject, then inserts the order or refreshes
      the row that already has its id (identity columns of an existing row are kept). */
  function UpsertOrder(rows: map<string, StandingOrder>, o: StandingOrder): map<string, StandingOrder> {
    var superseded := map id | id in rows ::
      if SameSubject(rows[id], o) && id != o.id then rows[id].(active := false) else rows[id];
    superseded[o.id :=
      if o.id in rows
      then rows[o.id].(fingerprint := o.fingerprint, active := o.active, lastUpdatedAt := o.lastUpdatedAt)
      else o]
  }

  function UpsertOrders(rows: map<string, StandingOrder>, os: seq<StandingOrder>): map<string, StandingOrder> {
    if os == [] then rows else UpsertOrder(UpsertOrders(rows, os[..|os| - 1]), os[|os| - 1])
  }

  /** The table writes of one executed action. */
  function WriteTables(st: StoreState, c: Coalition, u: StateUpdates, orders: seq<StandingOrder>): StoreState {
    StoreState(
      if c in st.budgets then st.budgets[c := st.budgets[c] + u.budgetDelta] else st.budgets,
      WriteReserves(st.reserves, u.reserves),
      WriteActive(st.active, u.active),
      WriteWorld(st.world, u.world),
      UpsertOrders(st.orders, orders),
      st.log)
  }

  function ApplyUpdates(
      st: StoreState, c: Coalition, actionId: string, actionType: ActionType, status: ExecutionStatus,
      u: StateUpdates, orders: seq<StandingOrder>): StoreState
  {
    if status == Failed then st
    else
      WriteTables(st, c, u, orders).(log := st.log + [Event(actionId, actionType, status, u.budgetDelta, |orders|)])
  }

  function ActiveFingerprints(rows: map<string, StandingOrder>, c: Coalition): set<Fingerprint> {
    set id | id in rows && rows[id].active && rows[id].coalition == c :: rows[id].fingerprint
  }

  // ------------------------------------------------------------- a fresh run

  function ReserveTable(rows: seq<ReserveGroup>): (r: map<string, ReserveGroup>)
    ensures forall id <- r :: r[id] in rows && r[id].id == id
    ensures forall row <- rows :: row.id in r
  {
    if rows == [] then map[] else ReserveTable(rows[..|rows| - 1])[rows[|rows| - 1].id := rows[|rows| - 1]]
  }

  function ActiveTable(rows: seq<ActiveGroup>): (r: map<string, ActiveGroup>)
    ensures forall id <- r :: r[id] in rows && r[id].id == id
    ensures forall row <- rows :: row.id in r
  {
    if rows == [] then map[] else ActiveTable(rows[..|rows| - 1])[rows[|rows| - 1].id := rows[|rows| - 1]]
  }

  function BudgetTable(rows: seq<CoalitionState>): (r: map<Coalition, int>)
    ensures forall row <- rows :: row.coalition in r
  {
    if rows == [] then map[]
    else BudgetTable(rows[..|rows| - 1])[rows[|rows| - 1].coalition := rows[|rows| - 1].budgetRemaining]
  }

  /** The primary keys of the run's tables; a scenario that breaks one cannot start a run. */
  predicate UniqueIds(sc: Scenario) {
    && Distinct(seq(|sc.sectors|, i requires 0 <= i < |sc.sectors| => sc.sectors[i].id))
    && Distinct(seq(|sc.controlPoints|, i requires 0 <= i < |sc.controlPoints| => sc.controlPoints[i].id))
    && Distinct(seq(|sc.zones|, i requires 0 <= i < |sc.zones| => sc.zones[i].id))
    && Distinct(seq(|sc.coalitions|, i requires 0 <= i < |sc.coalitions| => sc.coalitions[i].coalition))
    && Distinct(seq(|sc.activeGroups|, i requires 0 <= i < |sc.activeGroups| => sc.activeGroups[i].id))
    && Distinct(seq(|sc.reserveGroups|, i requires 0 <= i < |sc.reserveGroups| => sc.reserveGroups[i].id))
  }

  /** The rows a run starts with: one per scenario entry, and no execution orders. */
  function CreateRun(sc: Scenario): Option<StoreState> {
    if !UniqueIds(sc) then None
    else
      var active := ActiveTable(sc.activeGroups);
      Some(StoreState(
        BudgetTable(sc.coalitions), ReserveTable(sc.reserveGroups), active,
        map id | id in active :: SeededWorldGroup(active[id]), map[], []))
  }

  function SeededWorldGroup(g: ActiveGroup): WorldGroup {
    WorldGroup(g.id, g.id, Some(g.coalition), g.groupType, Some("scenario_group"), Some(g.id), g.sectorId,
               g.controlPointId, None, None, None, None, None, None, "scenario_seed", 0,
               Contains(g.groupType, "air_defense") || Contains(g.groupType, "fires"), g.mobile)
  }

  // ------------------------------------------------------------------ the store

  class Store {
    var budgets: map<Coalition, int>
    var reserves: map<string, ReserveGroup>
    var active: map<string, ActiveGroup>
    var world: map<string, WorldGroup>
    var orders: map<string, StandingOrder>
    var log: seq<Event>

    function State(): StoreState
      reads this
    {
      StoreState(budgets, reserves, active, world, orders, log)
    }

    constructor (initial: StoreState)
      ensures State() == initial
    {
      budgets, reserves, active := initial.budgets, initial.reserves, initial.active;
      world, orders, log := initial.world, initial.orders, initial.log;
    }

    /** Only the active-group table changes. */
    method UpsertActiveGroups(updates: seq<ActiveGroup>)
      modifies this`active
      ensures active == WriteActive(old(active), updates)
    {
      ghost var before := active;
      for i := 0 to |updates|
        invariant active == WriteActive(before, updates[..i])
      {
        active := active[updates[i].id := updates[i]];
        assert updates[..i + 1][..i] == updates[..i];
      }
      assert updates[..|updates|] == updates;
    }

    method UpsertWorldGroups(updates: seq<WorldGroup>)
      modifies this`world
      ensures world == WriteWorld(old(world), updates)
    {
      ghost var before := world;
      for i := 0 to |updates|
        invariant world == WriteWorld(before, updates[..i])
      {
        world := world[updates[i].id := updates[i]];
        assert updates[..i + 1][..i] == updates[..i];
      }
      assert updates[..|updates|] == updates;
    }

    method UpdateReserves(updates: seq<ReserveUpdate>)
      modifies this`reserves
      ensures reserves == WriteReserves(old(reserves), updates)
    {
      ghost var before := reserves;
      for i := 0 to |updates|
        invariant reserves == WriteReserves(before, updates[..i])
      {
        var u := updates[i];
        if u.reserveId in reserves {
          reserves := reserves[u.reserveId := reserves[u.reserveId].(available := u.available, status := u.status)];
        }
        assert updates[..i + 1][..i] == updates[..i];
      }
      assert updates[..|updates|] == updates;
    }

    method UpsertExecutionStandingOrder(o: StandingOrder)
      modifies this`orders
      ensures orders == UpsertOrder(old(orders), o)
    {
      var kept := if o.id in orders
                  then orders[o.id].(fingerprint := o.fingerprint, active := o.active, lastUpdatedAt := o.lastUpdatedAt)
                  else o;
      orders := map id | id in orders ::
        if SameSubject(orders[id], o) && id != o.id then orders[id].(active := false) else orders[id];
      orders := orders[o.id := kept];
    }

    method UpsertExecutionStandingOrders(os: seq<StandingOrder>)
      modifies this`orders
      ensures orders == UpsertOrders(old(orders), os)
    {
      ghost var before := orders;
      for i := 0 to |os|
        invariant orders == UpsertOrders(before, os[..i])
      {
        UpsertExecutionStandingOrder(os[i]);
        assert os[..i + 1][..i] == os[..i];
      }
      assert os[..|os|] == os;
    }

    /** One atomic write of an executed action. */
    method ApplyExecutionStateUpdates(
        c: Coalition, actionId: string, actionType: ActionType, status: ExecutionStatus,
        updates: StateUpdates, standingOrders: seq<StandingOrder>)
      modifies this
      ensures State() == ApplyUpdates(old(State()), c, actionId, actionType, status, updates, standingOrders)
    {
      if status !in {Succeeded, PartiallySucceeded, NoChange} {
        return;
      }
      if updates.budgetDelta != 0 && c in budgets {
        budgets := budgets[c := budgets[c] + updates.budgetDelta];
      }
      assert budgets == ApplyUpdates(old(State()), c, actionId, actionType, status, updates, standingOrders).budgets;
      UpdateReserves(updates.reserves);
      UpsertActiveGroups(updates.active);
      UpsertWorldGroups(updates.world);
      UpsertExecutionStandingOrders(standingOrders);
      log := log + [Event(actionId, actionType, status, updates.budgetDelta, |standingOrders|)];
    }
  }
}
