/** Turning an accepted action into commands, standing orders and state updates. */
module Planning {
  import opened Domain
  import opened StateStore

  // ------------------------------------------------------------------ commands

  datatype Payload =
    | DeployPayload(coalition: Coalition, reserveId: string, deployedId: string, targetSectorId: string, role: string)
    | MovePayload(coalition: Coalition, groupId: string, sectorId: string, controlPointId: Option<string>,
                  destinationType: DestinationType, destinationId: string)
    | PosturePayload(coalition: Coalition, groupId: string, posture: Posture)
    | ReinforcePayload(coalition: Coalition, groupId: string, controlPoint: string, sectorId: string, role: string)

  datatype Path = DeployPath | RepositionPath | WithdrawPath | PosturePath | ReinforcePath

  /** What the simulator sees: the command id is not part of the request. */
  datatype Request = Request(path: Path, payload: Payload)

  /** The command id is the action id with a suffix fixed by the path and the index. */
  datatype Command = Command(actionId: string, index: nat, request: Request)

  /** The group a command payload names under "group_id", if it has that key. */
  function PayloadGroup(p: Payload): Option<string> {
    match p
    case DeployPayload(_, _, _, _, _) => None
    case MovePayload(_, g, _, _, _, _) => Some(g)
    case PosturePayload(_, g, _) => Some(g)
    case ReinforcePayload(_, g, _, _, _) => Some(g)
  }

  datatype Plan = Plan(
    actionId: string, coalition: Coalition, actionType: ActionType, commands: seq<Command>,
    orders: seq<StandingOrder>, resourceDelta: int, entities: seq<string>, updates: StateUpdates)

  // ------------------------------------------------------------ standing orders

  function OrderId(c: Coalition, a: ActionType, entityId: Option<string>): string {
    "exec_" + CoalitionName(c) + "_" + ActionTypeName(a) + "_" + OrderSuffix(entityId)
  }

  function OrderSuffix(entityId: Option<string>): string {
    if Truthy(entityId) then entityId.value else "global"
  }

  function EntityType(a: ActionType): string {
    if a == SetSectorPriority then "sector" else "group"
  }

  function OrderFor(c: Coalition, p: Params, entityId: string, member: Option<string>, now: int): StandingOrder {
    StandingOrder(
      OrderId(c, TypeOf(p), Some(entityId)), c, TypeOf(p), EntityType(TypeOf(p)), Some(entityId),
      Fingerprint(TypeOf(p), Some(entityId), p, member), true, now)
  }

  // ------------------------------------------------------------------ positions

  /** The sector and control point a movement ends at; None where the source raises KeyError. */
  function ResolveDestination(sc: Scenario, t: DestinationType, id: string): Option<(string, Option<string>)> {
    match t
    case ToSector => Some((id, None))
    case ToZone =>
      (match FindZone(sc.zones, id)
       case Some(z) => Some((z.sectorId, None))
       case None => None)
    case ToControlPoint =>
      (match FindControlPoint(sc.controlPoints, id)
       case Some(p) => Some((p.sectorId, Some(p.id)))
       case None => None)
  }

  /** The world record of a group the engine has just placed at the centre of a sector. */
  function PlacedWorldGroup(
      sector: Sector, id: string, sourceId: string, c: Coalition, groupType: string,
      controlPointId: Option<string>, mobile: bool, now: int): WorldGroup
  {
    WorldGroup(id, sourceId, Some(c), groupType, Some("execution_managed"), Some(id), Some(sector.id), controlPointId,
               sector.centerLat, sector.centerLng, None, None, None, None, "execution", now,
               Contains(groupType, "air_defense") || Contains(groupType, "fires"), mobile)
  }

  // --------------------------------------------------------------------- plans

  /** None where building the plan raises because something it looks up is missing. */
  function BuildPlan(sc: Scenario, st: StoreState, c: Coalition, actionId: string, p: Params, now: int): Option<Plan> {
    match p
    case Hold(_, _, _) => Some(Plan(actionId, c, HoldAction, [], [], 0, [], NO_UPDATES))
    case Prioritize(s, _) =>
      Some(Plan(actionId, c, SetSectorPriority, [], [OrderFor(c, p, s, None, now)], 0, [], NO_UPDATES))
    case Deploy(r, s, role) => DeployPlan(sc, st, c, actionId, p, now)
    case Reposition(g, t, d) =>
      MovementPlan(sc, st, c, actionId, p, g, t, d, RepositionPath, None, now)
    case Withdraw(g, t, d) =>
      MovementPlan(sc, st, c, actionId, p, g, t, d, WithdrawPath, Some(Fallback), now)
    case ChangePosture(g, posture) =>
      if g !in st.active then None
      else
        Some(Plan(actionId, c, SetGroupPosture,
                  [Command(actionId, 0, Request(PosturePath, PosturePayload(c, g, posture)))],
                  [OrderFor(c, p, g, None, now)], 0, [g],
                  NO_UPDATES.(active := [st.active[g].(id := g, posture := posture)])))
    case Reinforce(cp, gs, role) => ReinforcePlan(sc, st, c, actionId, p, now)
  }

  function DeployPlan(sc: Scenario, st: StoreState, c: Coalition, actionId: string, p: Params, now: int): Option<Plan>
    requires p.Deploy?
  {
    var r := p.reserveId;
    var sector := FindSector(sc.sectors, p.targetSectorId);
    if r !in st.reserves || st.reserves[r].coalition != c || sector.None? then None
    else
      var reserve := st.reserves[r];
      var id := DeployedId(r);
      Some(Plan(
        actionId, c, DeployReserveGroup,
        [Command(actionId, 0, Request(DeployPath, DeployPayload(c, r, id, p.targetSectorId, p.role)))],
        [OrderFor(c, p, id, None, now)], -reserve.cost, [id],
        StateUpdates(
          -reserve.cost, [ReserveUpdate(r, false, "committed")],
          [ActiveGroup(id, c, reserve.groupType, Defensive, Some(p.targetSectorId), true, "ready", None, 0, 0)],
          [PlacedWorldGroup(sector.value, id, r, c, reserve.groupType, None, true, now)])))
  }

  function MovedGroup(g: ActiveGroup, id: string, sectorId: string, point: Option<string>, posture: Option<Posture>): ActiveGroup {
    g.(id := id, sectorId := Some(sectorId), controlPointId := point,
       posture := if posture.Some? then posture.value else g.posture)
  }

  function MovementPlan(
      sc: Scenario, st: StoreState, c: Coalition, actionId: string, p: Params, g: string,
      t: DestinationType, d: string, path: Path, posture: Option<Posture>, now: int): Option<Plan>
  {
    var target := ResolveDestination(sc, t, d);
    if g !in st.active || target.None? || FindSector(sc.sectors, target.value.0).None? then None
    else
      var (sectorId, point) := target.value;
      var group := st.active[g];
      Some(Plan(
        actionId, c, TypeOf(p),
        [Command(actionId, 0, Request(path, MovePayload(c, g, sectorId, point, t, d)))],
        [OrderFor(c, p, g, None, now)], 0, [g],
        StateUpdates(
          0, [], [MovedGroup(group, g, sectorId, point, posture)],
          [PlacedWorldGroup(FindSector(sc.sectors, sectorId).value, g, g, group.coalition, group.groupType, point, group.mobile, now)])))
  }

  // The rows of a reinforcement plan, one per group.

  function ReinforceCommand(c: Coalition, actionId: string, point: ControlPoint, g: string, role: string, index: nat): Command {
    Command(actionId, index,
            Request(ReinforcePath, ReinforcePayload(c, g, point.id, point.sectorId, role)))
  }

  function ReinforcedGroup(st: StoreState, point: ControlPoint, g: string): ActiveGroup
    requires g in st.active
  {
    MovedGroup(st.active[g], g, point.sectorId, Some(point.id), None)
  }

  function ReinforcedWorldGroup(sc: Scenario, st: StoreState, point: ControlPoint, g: string, now: int): WorldGroup
    requires g in st.active && FindSector(sc.sectors, point.sectorId).Some?
  {
    var group := st.active[g];
    PlacedWorldGroup(FindSector(sc.sectors, point.sectorId).value, g, g, group.coalition, group.groupType,
                     Some(point.id), group.mobile, now)
  }

  function ReinforceOrder(c: Coalition, p: Params, g: string, now: int): StandingOrder {
    OrderFor(c, p, g, Some(g), now)
  }

  predicate CanReinforce(sc: Scenario, st: StoreState, p: Params)
    requires p.Reinforce?
  {
    var point := FindControlPoint(sc.controlPoints, p.controlPointId);
    && point.Some?
    && (forall g <- p.groupIds :: g in st.active)
    && (p.groupIds != [] ==> FindSector(sc.sectors, point.value.sectorId).Some?)
  }

  // The four lists for the first n groups.

  function ReinforceCommands(c: Coalition, actionId: string, point: ControlPoint, p: Params, n: nat): (r: seq<Command>)
    requires p.Reinforce? && n <= |p.groupIds|
    ensures |r| == n
    ensures forall i :: 0 <= i < n ==> r[i] == ReinforceCommand(c, actionId, point, p.groupIds[i], p.reinforcementRole, i)
  {
    if n == 0 then []
    else ReinforceCommands(c, actionId, point, p, n - 1)
         + [ReinforceCommand(c, actionId, point, p.groupIds[n - 1], p.reinforcementRole, n - 1)]
  }

  function ReinforceOrders(c: Coalition, p: Params, now: int, n: nat): (r: seq<StandingOrder>)
    requires p.Reinforce? && n <= |p.groupIds|
    ensures |r| == n && forall i :: 0 <= i < n ==> r[i] == ReinforceOrder(c, p, p.groupIds[i], now)
  {
    if n == 0 then [] else ReinforceOrders(c, p, now, n - 1) + [ReinforceOrder(c, p, p.groupIds[n - 1], now)]
  }

  function ReinforcedGroups(st: StoreState, point: ControlPoint, ids: seq<string>): (r: seq<ActiveGroup>)
    requires forall g <- ids :: g in st.active
    ensures |r| == |ids| && forall i :: 0 <= i < |r| ==> ids[i] in st.active && r[i] == ReinforcedGroup(st, point, ids[i])
  {
    if ids == [] then []
    else
      assert ids[|ids| - 1] in ids;
      ReinforcedGroups(st, point, ids[..|ids| - 1]) + [ReinforcedGroup(st, point, ids[|ids| - 1])]
  }

  function ReinforcedWorldGroups(sc: Scenario, st: StoreState, point: ControlPoint, ids: seq<string>, now: int): (r: seq<WorldGroup>)
    requires forall g <- ids :: g in st.active
    requires ids != [] ==> FindSector(sc.sectors, point.sectorId).Some?
    ensures |r| == |ids|
    ensures forall i :: 0 <= i < |r| ==> ids[i] in st.active && r[i] == ReinforcedWorldGroup(sc, st, point, ids[i], now)
  {
    if ids == [] then []
    else
      assert ids[|ids| - 1] in ids;
      ReinforcedWorldGroups(sc, st, point, ids[..|ids| - 1], now) + [ReinforcedWorldGroup(sc, st, point, ids[|ids| - 1], now)]
  }

  function ReinforcePlan(sc: Scenario, st: StoreState, c: Coalition, actionId: string, p: Params, now: int): Option<Plan>
    requires p.Reinforce?
  {
    if !CanReinforce(sc, st, p) then None
    else
      var point := FindControlPoint(sc.controlPoints, p.controlPointId).value;
      var gs := p.groupIds;
      Some(Plan(
        actionId, c, ReinforceControlPoint, ReinforceCommands(c, actionId, point, p, |gs|),
        ReinforceOrders(c, p, now, |gs|), 0, gs,
        StateUpdates(0, [], ReinforcedGroups(st, point, gs), ReinforcedWorldGroups(sc, st, point, gs, now))))
  }

  /** The reinforcement branch as the engine runs it: one pass that appends to four lists. */
  method BuildReinforcePlan(sc: Scenario, st: StoreState, c: Coalition, actionId: string, p: Params, now: int)
      returns (plan: Option<Plan>)
    requires p.Reinforce?
    ensures plan == ReinforcePlan(sc, st, c, actionId, p, now)
  {
    hide Contains, OrderId, EntityType;
    var found := FindControlPoint(sc.controlPoints, p.controlPointId);
    if found.None? {
      return None;
    }
    var point, gs := found.value, p.groupIds;
    var commands: seq<Command>, orders: seq<StandingOrder> := [], [];
    var active: seq<ActiveGroup>, world: seq<WorldGroup> := [], [];
    for i := 0 to |gs|
      invariant forall g <- gs[..i] :: g in st.active
      invariant i > 0 ==> FindSector(sc.sectors, point.sectorId).Some?
      invariant commands == ReinforceCommands(c, actionId, point, p, i)
      invariant orders == ReinforceOrders(c, p, now, i)
      invariant active == ReinforcedGroups(st, point, gs[..i])
      invariant world == ReinforcedWorldGroups(sc, st, point, gs[..i], now)
    {
      if gs[i] !in st.active || FindSector(sc.sectors, point.sectorId).None? {
        return None;
      }
      PrefixStep(gs, i);
      commands := commands + [ReinforceCommand(c, actionId, point, gs[i], p.reinforcementRole, i)];
      active := active + [ReinforcedGroup(st, point, gs[i])];
      world := world + [ReinforcedWorldGroup(sc, st, point, gs[i], now)];
      orders := orders + [ReinforceOrder(c, p, gs[i], now)];
    }
    assert gs[..|gs|] == gs;
    plan := Some(Plan(actionId, c, ReinforceControlPoint, commands, orders, 0, gs, StateUpdates(0, [], active, world)));
  }
}
