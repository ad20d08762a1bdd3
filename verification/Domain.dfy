/** Value types shared by the whole model: enumerations, scenario records and the rows
    of the state store.  Ids are strings, exactly as they are in the store. */
module Domain {

  datatype Option<+T> = None | Some(value: T)

  /** A validation stage or schema check either yields a value or stops with a code. */
  datatype Result<+T, +E> = Ok(value: T) | Err(error: E) {
    predicate IsFailure() {
      Err?
    }

    function PropagateFailure<U>(): Result<U, E>
      requires Err?
    {
      Err(error)
    }

    function Extract(): T
      requires Ok?
    {
      value
    }
  }

  /** Python truthiness of an optional string: None and "" are false. */
  predicate Truthy(s: Option<string>) {
    s.Some? && s.value != ""
  }

  /** Python's `part in text` for a non-empty part. */
  predicate Contains(text: string, part: string)
    requires part != ""
  {
    |part| <= |text| && (text[..|part|] == part || Contains(text[1..], part))
  }

  /** Decimal digits of a number. */
  function Decimal(n: nat): string {
    var digit := '0' + (n % 10) as char;
    if n < 10 then [digit] else Decimal(n / 10) + [digit]
  }

  // str.lower(), as far as the ASCII words looked for here can tell.

  function LowerChar(c: char): char {
    if 'A' <= c <= 'Z' then c + 32 as char else c
  }

  function Lower(s: string): string {
    if s == "" then "" else [LowerChar(s[0])] + Lower(s[1..])
  }

  datatype Coalition = Red | Blue

  datatype ActionType =
    | SetSectorPriority
    | DeployReserveGroup
    | RepositionGroup
    | SetGroupPosture
    | ReinforceControlPoint
    | WithdrawGroup
    | HoldAction

  datatype Posture = Defensive | InReserve | Screening | Supporting | Fallback

  datatype SectorPriority = PriorityLow | PriorityMedium | PriorityHigh

  datatype DestinationType = ToSector | ToControlPoint | ToZone

  datatype ValidationStatus = Accepted | Rejected | PartiallyAccepted

  datatype ExecutionStatus = Succeeded | PartiallySucceeded | Failed | NoChange

  datatype RejectionCode =
    | UnknownActionType
    | MissingRequiredField
    | InvalidFieldValue
    | CoalitionMismatch
    | UnknownEntity
    | EntityNotOwned
    | EntityUnavailable
    | DestinationInvalid
    | DestinationRestricted
    | InsufficientBudget
    | ReserveNotAvailable
    | ActionConflict
    | ScenarioRuleViolation

  /** How a control point looks to one coalition. */
  datatype ControlStatus = Friendly | Hostile | Contested | Unowned

  function CoalitionName(c: Coalition): string {
    match c
    case Red => "red"
    case Blue => "blue"
  }

  function ActionTypeName(a: ActionType): string {
    match a
    case SetSectorPriority => "set_sector_priority"
    case DeployReserveGroup => "deploy_reserve_group"
    case RepositionGroup => "reposition_group"
    case SetGroupPosture => "set_group_posture"
    case ReinforceControlPoint => "reinforce_control_point"
    case WithdrawGroup => "withdraw_group"
    case HoldAction => "hold_action"
  }

  // ---------------------------------------------------------------- scenario

  datatype Sector = Sector(
    id: string, name: string, role: string, neighborIds: seq<string>, tags: seq<string>,
    centerLat: Option<real>, centerLng: Option<real>, radiusNm: real)

  datatype ControlPoint = ControlPoint(
    id: string, name: string, sectorId: string, kind: string, owner: Option<Coalition>,
    strategicValue: string, lat: Option<real>, lng: Option<real>)

  datatype Zone = Zone(
    id: string, name: string, sectorId: string, centerLat: real, centerLng: real,
    radiusNm: real, tags: seq<string>)

  datatype AuthoredOrder = AuthoredOrder(id: string, coalition: Coalition, text: string, active: bool)

  datatype CoalitionState = CoalitionState(
    coalition: Coalition, objectives: seq<string>, budgetRemaining: int, reserveIds: seq<string>,
    standingOrders: seq<AuthoredOrder>, attritionPool: int, replacementPool: int)

  datatype Restriction = Restriction(
    id: string, coalition: Option<Coalition>, restrictionType: string, description: string,
    sectorIds: seq<string>, controlPointIds: seq<string>, adjacencyLimited: bool)

  datatype ActiveGroup = ActiveGroup(
    id: string, coalition: Coalition, groupType: string, posture: Posture,
    sectorId: Option<string>, mobile: bool, status: string, controlPointId: Option<string>,
    attritionCount: int, replacementPool: int)

  datatype ReserveGroup = ReserveGroup(
    id: string, coalition: Coalition, groupType: string, available: bool, cost: int,
    allowedSectorIds: seq<string>, status: string, emergency: bool,
    attritionCount: int, replacementPool: int)

  datatype Scenario = Scenario(
    id: string, version: string, name: string, theater: string, summary: string,
    sectors: seq<Sector>, controlPoints: seq<ControlPoint>, coalitions: seq<CoalitionState>,
    activeGroups: seq<ActiveGroup>, reserveGroups: seq<ReserveGroup>,
    zones: seq<Zone>, restrictions: seq<Restriction>)

  // The engine and the validator index the scenario by id; the last entry wins.

  function FindSector(sectors: seq<Sector>, id: string): (r: Option<Sector>)
    ensures r.Some? ==> r.value in sectors && r.value.id == id
    ensures r.None? <==> forall s <- sectors :: s.id != id
  {
    if sectors == [] then None
    else if sectors[|sectors| - 1].id == id then Some(sectors[|sectors| - 1])
    else FindSector(sectors[..|sectors| - 1], id)
  }

  function FindControlPoint(points: seq<ControlPoint>, id: string): (r: Option<ControlPoint>)
    ensures r.Some? ==> r.value in points && r.value.id == id
    ensures r.None? <==> forall p <- points :: p.id != id
  {
    if points == [] then None
    else if points[|points| - 1].id == id then Some(points[|points| - 1])
    else FindControlPoint(points[..|points| - 1], id)
  }

  function FindZone(zones: seq<Zone>, id: string): (r: Option<Zone>)
    ensures r.Some? ==> r.value in zones && r.value.id == id
    ensures r.None? <==> forall z <- zones :: z.id != id
  {
    if zones == [] then None
    else if zones[|zones| - 1].id == id then Some(zones[|zones| - 1])
    else FindZone(zones[..|zones| - 1], id)
  }

  /** What the scenario loader guarantees about references between records. */
  predicate ReferencesResolve(sc: Scenario) {
    && (forall p <- sc.controlPoints :: exists s <- sc.sectors :: s.id == p.sectorId)
    && (forall z <- sc.zones :: exists s <- sc.sectors :: s.id == z.sectorId)
    && (forall r <- sc.reserveGroups :: forall a <- r.allowedSectorIds :: exists s <- sc.sectors :: s.id == a)
    && (forall g <- sc.activeGroups :: g.sectorId.Some? ==> exists s <- sc.sectors :: s.id == g.sectorId.value)
    && (forall s <- sc.sectors :: forall n <- s.neighborIds :: exists t <- sc.sectors :: t.id == n)
  }

  // ------------------------------------------------------------- world truth

  datatype WorldGroup = WorldGroup(
    id: string, sourceId: string, coalition: Option<Coalition>, groupType: string,
    category: Option<string>, name: Option<string>, sectorId: Option<string>,
    controlPointId: Option<string>, lat: Option<real>, lng: Option<real>, alt: Option<real>,
    heading: Option<real>, speed: Option<real>, health: Option<real>, source: string,
    lastUpdatedAt: int, highValue: bool, mobile: bool)

  datatype WorldControlPoint = WorldControlPoint(
    controlPointId: string, owner: Option<Coalition>, sectorId: string, lastUpdatedAt: int, source: string)

  /** A control point as listed in a coalition's observation. */
  datatype KnownControlPoint = KnownControlPoint(
    id: string, name: string, kind: string, sectorId: string, status: ControlStatus)

  // ------------------------------------------------------------ action forms

  /** The normalized parameters the schema stage produces, one form per action type. */
  datatype Params =
    | Prioritize(sectorId: string, priority: SectorPriority)
    | Deploy(reserveId: string, targetSectorId: string, role: string)
    | Reposition(groupId: string, destinationType: DestinationType, destinationId: string)
    | ChangePosture(groupId: string, posture: Posture)
    | Reinforce(controlPointId: string, groupIds: seq<string>, reinforcementRole: string)
    | Withdraw(groupId: string, fallbackType: DestinationType, fallbackId: string)
    | Hold(scope: string, holdSectorId: string, holdGroupId: string)

  function TypeOf(p: Params): ActionType {
    match p
    case Prioritize(_, _) => SetSectorPriority
    case Deploy(_, _, _) => DeployReserveGroup
    case Reposition(_, _, _) => RepositionGroup
    case ChangePosture(_, _) => SetGroupPosture
    case Reinforce(_, _, _) => ReinforceControlPoint
    case Withdraw(_, _, _) => WithdrawGroup
    case Hold(_, _, _) => HoldAction
  }

  /** The groups a movement action claims in its batch. */
  function MovementGroups(p: Params): seq<string> {
    match p
    case Reposition(g, _, _) => [g]
    case Withdraw(g, _, _) => [g]
    case Reinforce(_, gs, _) => gs
    case _ => []
  }

  /** Every group an action names as its own. */
  function NamedGroups(p: Params): seq<string> {
    match p
    case ChangePosture(g, _) => [g]
    case Hold(scope, _, g) => if scope == "group" then [g] else []
    case _ => MovementGroups(p)
  }

  predicate Distinct<T(==)>(s: seq<T>) {
    forall i, j :: 0 <= i < j < |s| ==> s[i] != s[j]
  }

  /** Loops that consume a sequence from the front meet specifications that peel it from the back. */
  lemma PrefixStep<T>(s: seq<T>, i: nat)
    requires i < |s|
    ensures s[..i + 1] == s[..i] + [s[i]] && s[..i + 1][..i] == s[..i] && s[..i + 1] != []
    ensures |s[..i + 1]| - 1 == i && s[..i + 1][i] == s[i]
  {
  }

  /** The id a deployed reserve gets on the map. */
  function DeployedId(reserveId: string): string {
    "deployed_" + reserveId
  }

  lemma DeployedIdInjective(a: string, b: string)
    ensures DeployedId(a) == DeployedId(b) <==> a == b
  {
    assert DeployedId(a)[9..] == a && DeployedId(b)[9..] == b;
  }

  predicate Deployable(r: ReserveGroup) {
    r.available && r.status !in {"committed", "unavailable", "depleted"}
  }
}
