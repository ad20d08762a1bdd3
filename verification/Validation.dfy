/** The four state-dependent validation stages and the object they work on. */
module Validation {
  import opened Domain

  /** Everything the validator may look at.  `knownPoints` is the control-point list of the
      latest observation, when there is one. */
  datatype Context = Context(
    coalition: Coalition, budget: int, active: map<string, ActiveGroup>,
    reserves: map<string, ReserveGroup>, world: map<string, WorldGroup>,
    knownPoints: Option<seq<KnownControlPoint>>)

  datatype Stage = CoalitionStage | ScenarioStage | ResourceStage | ReadinessStage

  const STAGES := [CoalitionStage, ScenarioStage, ResourceStage, ReadinessStage]

  type Abort = Option<RejectionCode>

  // ------------------------------------------------------------------ lookups

  predicate IsSameOrAdjacent(sc: Scenario, source: string, target: string) {
    || source == target
    || (FindSector(sc.sectors, source).Some? && target in FindSector(sc.sectors, source).value.neighborIds)
  }

  predicate NoDeploy(sc: Scenario, c: Coalition, sectorId: string) {
    exists r <- sc.restrictions ::
      r.coalition in {None, Some(c)} && sectorId in r.sectorIds && r.restrictionType == "no_deploy_zone"
  }

  function FirstStatus(points: seq<KnownControlPoint>, id: string): (r: Option<ControlStatus>) {
    if points == [] then None
    else if points[0].id == id then Some(points[0].status)
    else FirstStatus(points[1..], id)
  }

  /** The observed status when the point was observed, the authored owner otherwise. */
  function VisibleStatus(ctx: Context, point: ControlPoint): ControlStatus {
    var observed := if ctx.knownPoints.Some? then FirstStatus(ctx.knownPoints.value, point.id) else None;
    match observed
    case Some(status) => status
    case None =>
      if point.owner == Some(ctx.coalition) then Friendly
      else if point.owner == None then Contested
      else Hostile
  }

  predicate ReinforcementTarget(ctx: Context, point: ControlPoint) {
    VisibleStatus(ctx, point) in {Friendly, Contested}
  }

  /** The sector a destination stands for. */
  function DestinationSector(sc: Scenario, t: DestinationType, id: string): Result<string, RejectionCode> {
    match t
    case ToSector => if FindSector(sc.sectors, id).Some? then Ok(id) else Err(UnknownEntity)
    case ToControlPoint =>
      (match FindControlPoint(sc.controlPoints, id)
       case Some(p) => Ok(p.sectorId)
       case None => Err(UnknownEntity))
    case ToZone =>
      (match FindZone(sc.zones, id)
       case Some(z) => Ok(z.sectorId)
       case None => Err(DestinationInvalid))
  }

  /** Where a group is for reachability: the world record if it names a sector, else the group's own. */
  function SourceSector(ctx: Context, g: ActiveGroup): Option<string> {
    if g.id in ctx.world && Truthy(ctx.world[g.id].sectorId) then ctx.world[g.id].sectorId else g.sectorId
  }

  predicate CanReach(sc: Scenario, ctx: Context, g: ActiveGroup, target: string) {
    SourceSector(ctx, g).None? || IsSameOrAdjacent(sc, SourceSector(ctx, g).value, target)
  }

  predicate UnavailableGroup(g: ActiveGroup) {
    g.status in {"destroyed", "withdrawn", "unavailable"}
  }

  // ------------------------------------------------------------------- stages

  function OwnershipAbort(ctx: Context, id: string): Abort {
    if id !in ctx.active then Some(UnknownEntity)
    else if ctx.active[id].coalition != ctx.coalition then Some(EntityNotOwned)
    else if id in ctx.world && ctx.world[id].coalition !in {None, Some(ctx.coalition)} then Some(EntityNotOwned)
    else None
  }

  function MoveAbort(sc: Scenario, ctx: Context, id: string, t: DestinationType, destination: string): Abort {
    if id !in ctx.active then Some(UnknownEntity)
    else
      match DestinationSector(sc, t, destination)
      case Err(code) => Some(code)
      case Ok(target) =>
        if !CanReach(sc, ctx, ctx.active[id], target) then Some(DestinationRestricted)
        else if NoDeploy(sc, ctx.coalition, target) then Some(DestinationRestricted)
        else None
  }

  /** What one stage says about one group of an action. */
  function GroupAbort(stage: Stage, sc: Scenario, ctx: Context, p: Params, id: string): Abort {
    match stage
    case CoalitionStage => OwnershipAbort(ctx, id)
    case ScenarioStage =>
      (match p
       case Reposition(_, t, d) => MoveAbort(sc, ctx, id, t, d)
       case Withdraw(_, t, d) => MoveAbort(sc, ctx, id, t, d)
       case Reinforce(cp, _, _) =>
         var point := FindControlPoint(sc.controlPoints, cp);
         if id !in ctx.active then Some(UnknownEntity)
         else if point.Some? && !CanReach(sc, ctx, ctx.active[id], point.value.sectorId) then Some(DestinationRestricted)
         else None
       case ChangePosture(_, _) => if id !in ctx.active then Some(UnknownEntity) else None
       case _ => None)
    case ResourceStage =>
      if p.Hold? then None
      else if id !in ctx.active then Some(UnknownEntity)
      else if UnavailableGroup(ctx.active[id]) then Some(EntityUnavailable)
      else None
    case ReadinessStage =>
      if p.Hold? || p.ChangePosture? then None
      else if id !in ctx.active then Some(UnknownEntity)
      else if ctx.active[id].mobile then None
      else if p.Reinforce? && ctx.active[id].controlPointId == Some(p.controlPointId) then None
      else Some(ScenarioRuleViolation)
  }

  /** The groups are checked in order; the first one that fails decides the code. */
  function FirstGroupAbort(stage: Stage, sc: Scenario, ctx: Context, p: Params, ids: seq<string>): (r: Abort)
    ensures r.None? <==> forall id <- ids :: GroupAbort(stage, sc, ctx, p, id).None?
    ensures r.Some? ==> exists id <- ids :: GroupAbort(stage, sc, ctx, p, id) == r
  {
    if ids == [] then None
    else
      var first := GroupAbort(stage, sc, ctx, p, ids[0]);
      assert ids == [ids[0]] + ids[1..];
      if first.Some? then first else FirstGroupAbort(stage, sc, ctx, p, ids[1..])
  }

  /** The part of a stage that does not look at groups. */
  function EntityAbort(stage: Stage, sc: Scenario, ctx: Context, p: Params): Abort {
    match (stage, p)
    case (CoalitionStage, Deploy(r, _, _)) =>
      if r !in ctx.reserves then Some(UnknownEntity)
      else if ctx.reserves[r].coalition != ctx.coalition then Some(EntityNotOwned)
      else None
    case (CoalitionStage, Reinforce(cp, _, _)) =>
      (match FindControlPoint(sc.controlPoints, cp)
       case None => Some(UnknownEntity)
       case Some(point) => if ReinforcementTarget(ctx, point) then None else Some(EntityNotOwned))
    case (ScenarioStage, Prioritize(s, _)) =>
      if FindSector(sc.sectors, s).None? then Some(UnknownEntity) else None
    case (ScenarioStage, Hold(scope, s, _)) =>
      if scope == "sector" && FindSector(sc.sectors, s).None? then Some(UnknownEntity) else None
    case (ScenarioStage, Deploy(r, s, role)) =>
      if r !in ctx.reserves then Some(UnknownEntity)
      else if FindSector(sc.sectors, s).None? then Some(UnknownEntity)
      else if s !in ctx.reserves[r].allowedSectorIds then Some(DestinationRestricted)
      else if NoDeploy(sc, ctx.coalition, s) then Some(DestinationRestricted)
      else if role == "fires" && !Contains(ctx.reserves[r].groupType, "fires") then Some(ScenarioRuleViolation)
      else None
    case (ScenarioStage, Reinforce(cp, _, _)) =>
      (match FindControlPoint(sc.controlPoints, cp)
       case None => Some(UnknownEntity)
       case Some(point) => if ReinforcementTarget(ctx, point) then None else Some(DestinationRestricted))
    case (ResourceStage, Deploy(r, _, _)) =>
      if r !in ctx.reserves then Some(UnknownEntity)
      else if !Deployable(ctx.reserves[r]) then Some(ReserveNotAvailable)
      else if ctx.budget < ctx.reserves[r].cost then Some(InsufficientBudget)
      else None
    case _ => None
  }

  function StageAbort(stage: Stage, sc: Scenario, ctx: Context, p: Params): Abort {
    var entity := EntityAbort(stage, sc, ctx, p);
    if entity.Some? then entity else FirstGroupAbort(stage, sc, ctx, p, NamedGroups(p))
  }

  /** No stage objects. */
  predicate Passes(sc: Scenario, ctx: Context, p: Params) {
    forall stage: Stage :: StageAbort(stage, sc, ctx, p).None?
  }

  // ------------------------------------------------- what passing means, outright

  predicate Owned(ctx: Context, id: string) {
    && id in ctx.active
    && ctx.active[id].coalition == ctx.coalition
    && (id in ctx.world ==> ctx.world[id].coalition in {None, Some(ctx.coalition)})
  }

  predicate LegalMove(sc: Scenario, ctx: Context, id: string, t: DestinationType, d: string) {
    && Owned(ctx, id) && !UnavailableGroup(ctx.active[id]) && ctx.active[id].mobile
    && var target := DestinationSector(sc, t, d);
    && target.Ok?
    && CanReach(sc, ctx, ctx.active[id], target.value)
    && !NoDeploy(sc, ctx.coalition, target.value)
  }

  /** The rules for one group an action names, stated without stages. */
  predicate GroupLegal(sc: Scenario, ctx: Context, p: Params, id: string) {
    match p
    case Reposition(_, t, d) => LegalMove(sc, ctx, id, t, d)
    case Withdraw(_, t, d) => LegalMove(sc, ctx, id, t, d)
    case ChangePosture(_, _) => Owned(ctx, id) && !UnavailableGroup(ctx.active[id])
    case Reinforce(cp, _, _) =>
      && Owned(ctx, id) && !UnavailableGroup(ctx.active[id])
      && (ctx.active[id].mobile || ctx.active[id].controlPointId == Some(cp))
      && var point := FindControlPoint(sc.controlPoints, cp);
      && (point.Some? ==> CanReach(sc, ctx, ctx.active[id], point.value.sectorId))
    case _ => Owned(ctx, id)
  }

  /** The rules of the game for one action, stated without stages or an order of checks. */
  predicate Legal(sc: Scenario, ctx: Context, p: Params) {
    && (forall g <- NamedGroups(p) :: GroupLegal(sc, ctx, p, g))
    && match p
       case Prioritize(s, _) => FindSector(sc.sectors, s).Some?
       case Hold(scope, s, _) => scope == "sector" ==> FindSector(sc.sectors, s).Some?
       case Deploy(r, s, role) =>
         && r in ctx.reserves && ctx.reserves[r].coalition == ctx.coalition && Deployable(ctx.reserves[r])
         && ctx.reserves[r].cost <= ctx.budget
         && FindSector(sc.sectors, s).Some? && s in ctx.reserves[r].allowedSectorIds && !NoDeploy(sc, ctx.coalition, s)
         && (role == "fires" ==> Contains(ctx.reserves[r].groupType, "fires"))
       case Reinforce(cp, _, _) =>
         var point := FindControlPoint(sc.controlPoints, cp);
         point.Some? && ReinforcementTarget(ctx, point.value)
       case _ => true
  }

  lemma GroupPassesIffLegal(sc: Scenario, ctx: Context, p: Params, id: string)
    requires id in NamedGroups(p)
    ensures (forall stage: Stage :: GroupAbort(stage, sc, ctx, p, id).None?) <==> GroupLegal(sc, ctx, p, id)
  {
    var all := forall stage: Stage :: GroupAbort(stage, sc, ctx, p, id).None?;
    assert all <==>
      && GroupAbort(CoalitionStage, sc, ctx, p, id).None? && GroupAbort(ScenarioStage, sc, ctx, p, id).None?
      && GroupAbort(ResourceStage, sc, ctx, p, id).None? && GroupAbort(ReadinessStage, sc, ctx, p, id).None?;
  }

  /** The staged checks accept exactly the legal actions. */
  lemma PassesIffLegal(sc: Scenario, ctx: Context, p: Params)
    ensures Passes(sc, ctx, p) <==> Legal(sc, ctx, p)
  {
    var entities := forall stage: Stage :: EntityAbort(stage, sc, ctx, p).None?;
    assert entities <==>
      && EntityAbort(CoalitionStage, sc, ctx, p).None? && EntityAbort(ScenarioStage, sc, ctx, p).None?
      && EntityAbort(ResourceStage, sc, ctx, p).None? && EntityAbort(ReadinessStage, sc, ctx, p).None?;
    var groups := forall id <- NamedGroups(p) :: forall stage: Stage :: GroupAbort(stage, sc, ctx, p, id).None?;
    assert Passes(sc, ctx, p) <==> entities && groups by {
      assert forall stage: Stage :: StageAbort(stage, sc, ctx, p).None? <==>
        EntityAbort(stage, sc, ctx, p).None? && forall id <- NamedGroups(p) :: GroupAbort(stage, sc, ctx, p, id).None?;
    }
    forall id | id in NamedGroups(p) {
      GroupPassesIffLegal(sc, ctx, p, id);
    }
  }
}
