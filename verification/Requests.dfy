/** Reading one raw action of a model's payload: identification, coalition declaration and
    the schema stage.  A payload is untrusted, so every field may be missing or of any type. */
module Requests {
  import opened Domain

  datatype Json =
    | JNull
    | JBool(flag: bool)
    | JNumber(number: real)
    | JString(text: string)
    | JArray(items: seq<Json>)
    | JObject(fields: map<string, Json>)

  /** One entry of the payload; an entry that is not an object is wrapped under "invalid_payload". */
  type RawAction = map<string, Json>

  function AsRawAction(item: Json): RawAction {
    if item.JObject? then item.fields else map["invalid_payload" := item]
  }

  /** The entries of a payload: an array, or an object with an array under "actions"; None where
      the source raises. */
  function ExtractActions(payload: Json): Option<seq<RawAction>> {
    var actions :=
      if payload.JObject? then if "actions" in payload.fields then payload.fields["actions"] else JArray([]) else payload;
    if actions.JArray?
    then Some(seq(|actions.items|, i requires 0 <= i < |actions.items| => AsRawAction(actions.items[i])))
    else None
  }

  function ActionList(payload: Json): seq<RawAction> {
    if ExtractActions(payload).Some? then ExtractActions(payload).value else []
  }

  datatype ParseOutcome =
    | Refused(actionType: Option<ActionType>, code: RejectionCode)
    | Parsed(params: Params, duplicatesRemoved: bool)

  // The code points Python's str.strip() removes.
  predicate IsSpace(c: char) {
    var n := c as int;
    || 9 <= n <= 13 || 28 <= n <= 32 || n == 0x85 || n == 0xA0 || n == 0x1680
    || 0x2000 <= n <= 0x200A || n == 0x2028 || n == 0x2029 || n == 0x202F || n == 0x205F || n == 0x3000
  }

  predicate IsBlank(s: string) {
    forall c <- s :: IsSpace(c)
  }

  predicate IsText(v: Json) {
    v.JString? && !IsBlank(v.text)
  }

  function Get(fields: map<string, Json>, key: string): Json {
    if key in fields then fields[key] else JNull
  }

  function RequireText(fields: map<string, Json>, key: string): Result<string, RejectionCode> {
    var v := Get(fields, key);
    if IsText(v) then Ok(v.text)
    else if v.JNull? then Err(MissingRequiredField)
    else Err(InvalidFieldValue)
  }

  function ParseActionType(s: string): (r: Option<ActionType>)
    ensures r.Some? ==> s == ActionTypeName(r.value)
  {
    if s == ActionTypeName(SetSectorPriority) then Some(SetSectorPriority)
    else if s == ActionTypeName(DeployReserveGroup) then Some(DeployReserveGroup)
    else if s == ActionTypeName(RepositionGroup) then Some(RepositionGroup)
    else if s == ActionTypeName(SetGroupPosture) then Some(SetGroupPosture)
    else if s == ActionTypeName(ReinforceControlPoint) then Some(ReinforceControlPoint)
    else if s == ActionTypeName(WithdrawGroup) then Some(WithdrawGroup)
    else if s == ActionTypeName(HoldAction) then Some(HoldAction)
    else None
  }

  function ParsePriority(s: string): Result<SectorPriority, RejectionCode> {
    match s
    case "low" => Ok(PriorityLow)
    case "medium" => Ok(PriorityMedium)
    case "high" => Ok(PriorityHigh)
    case _ => Err(InvalidFieldValue)
  }

  function ParseDestinationType(s: string): Result<DestinationType, RejectionCode> {
    match s
    case "sector" => Ok(ToSector)
    case "control_point" => Ok(ToControlPoint)
    case "zone" => Ok(ToZone)
    case _ => Err(InvalidFieldValue)
  }

  function ParsePosture(s: string): Result<Posture, RejectionCode> {
    match s
    case "defensive" => Ok(Defensive)
    case "reserve" => Ok(InReserve)
    case "screening" => Ok(Screening)
    case "support" => Ok(Supporting)
    case "fallback" => Ok(Fallback)
    case _ => Err(InvalidFieldValue)
  }

  /** Keeps the first occurrence of each id, in order. */
  function Unique(ids: seq<string>): (r: seq<string>)
    ensures Distinct(r)
    ensures forall id :: id in r <==> id in ids
    ensures |r| <= |ids|
  {
    if ids == [] then []
    else
      var front, last := ids[..|ids| - 1], ids[|ids| - 1];
      assert ids == front + [last];
      var r := Unique(front);
      if last in r then r else r + [last]
  }

  function Texts(items: seq<Json>): (r: seq<string>)
    requires forall v <- items :: IsText(v)
    ensures |r| == |items| && forall i :: 0 <= i < |r| ==> items[i] == JString(r[i]) && !IsBlank(r[i])
  {
    if items == [] then []
    else
      assert IsText(items[0]) && forall v <- items[1..] :: IsText(v);
      [items[0].text] + Texts(items[1..])
  }

  /** What later stages rely on: identifiers are never blank and group lists hold one to
      three distinct ids. */
  predicate WellFormed(p: Params) {
    && (forall g <- NamedGroups(p) :: !IsBlank(g))
    && match p
       case Prioritize(s, _) => !IsBlank(s)
       case Deploy(r, s, _) => !IsBlank(r) && !IsBlank(s)
       case Reposition(_, _, d) => !IsBlank(d)
       case Withdraw(_, _, d) => !IsBlank(d)
       case Reinforce(cp, gs, _) => !IsBlank(cp) && Distinct(gs) && 1 <= |gs| <= 3
       case Hold(scope, s, _) => scope == "sector" ==> !IsBlank(s)
       case ChangePosture(_, _) => true
  }

  datatype Normalized = Normalized(params: Params, duplicatesRemoved: bool)

  type SchemaResult = Result<Normalized, RejectionCode>

  function PrioritizeSchema(fields: map<string, Json>): (r: SchemaResult)
    ensures r.Ok? ==> r.value.params.Prioritize? && WellFormed(r.value.params)
  {
    var sectorId :- RequireText(fields, "sector_id");
    var level :- RequireText(fields, "priority");
    var priority :- ParsePriority(level);
    Ok(Normalized(Prioritize(sectorId, priority), false))
  }

  const DEPLOY_ROLES := {"defensive", "screening", "support", "fires", "reserve"}

  function DeploySchema(fields: map<string, Json>): (r: SchemaResult)
    ensures r.Ok? ==> r.value.params.Deploy? && WellFormed(r.value.params)
  {
    var reserveId :- RequireText(fields, "reserve_group_id");
    var target :- RequireText(fields, "target_sector_id");
    var role :- RequireText(fields, "role");
    if role !in DEPLOY_ROLES then Err(InvalidFieldValue)
    else Ok(Normalized(Deploy(reserveId, target, role), false))
  }

  function RepositionSchema(fields: map<string, Json>): (r: SchemaResult)
    ensures r.Ok? ==> r.value.params.Reposition? && WellFormed(r.value.params)
  {
    var groupId :- RequireText(fields, "group_id");
    var kind :- RequireText(fields, "destination_type");
    var destinationType :- ParseDestinationType(kind);
    var destinationId :- RequireText(fields, "destination_id");
    Ok(Normalized(Reposition(groupId, destinationType, destinationId), false))
  }

  function PostureSchema(fields: map<string, Json>): (r: SchemaResult)
    ensures r.Ok? ==> r.value.params.ChangePosture? && WellFormed(r.value.params)
  {
    var groupId :- RequireText(fields, "group_id");
    var name :- RequireText(fields, "posture");
    var posture :- ParsePosture(name);
    Ok(Normalized(ChangePosture(groupId, posture), false))
  }

  const REINFORCEMENT_ROLES := {"defend", "screen", "support", "fallback_cover"}

  /** The group list of a reinforcement: up to three ids, repetitions removed, and whether there were any. */
  function GroupList(raw: Json): (r: Result<(seq<string>, bool), RejectionCode>)
    ensures r.Ok? ==> Distinct(r.value.0) && 1 <= |r.value.0| <= 3 && forall g <- r.value.0 :: !IsBlank(g)
  {
    if !raw.JArray? || (exists v <- raw.items :: !IsText(v)) then Err(InvalidFieldValue)
    else if !(1 <= |raw.items| <= 3) then Err(InvalidFieldValue)
    else
      var ids := Texts(raw.items);
      var gs := Unique(ids);
      assert ids[0] in gs;
      assert forall g <- gs :: g in ids && !IsBlank(g);
      Ok((gs, |gs| != |ids|))
  }

  function ReinforceSchema(fields: map<string, Json>): (r: SchemaResult)
    ensures r.Ok? ==> r.value.params.Reinforce? && WellFormed(r.value.params)
  {
    var controlPointId :- RequireText(fields, "control_point_id");
    var groups :- GroupList(Get(fields, "group_ids"));
    var role :- RequireText(fields, "reinforcement_role");
    if role !in REINFORCEMENT_ROLES then Err(InvalidFieldValue)
    else Ok(Normalized(Reinforce(controlPointId, groups.0, role), groups.1))
  }

  function WithdrawSchema(fields: map<string, Json>): (r: SchemaResult)
    ensures r.Ok? ==> r.value.params.Withdraw? && WellFormed(r.value.params)
  {
    var groupId :- RequireText(fields, "group_id");
    var kind :- RequireText(fields, "fallback_destination_type");
    var fallbackType :- ParseDestinationType(kind);
    var fallbackId :- RequireText(fields, "fallback_destination_id");
    Ok(Normalized(Withdraw(groupId, fallbackType, fallbackId), false))
  }

  function HoldSchema(fields: map<string, Json>): (r: SchemaResult)
    ensures r.Ok? ==> r.value.params.Hold? && WellFormed(r.value.params)
  {
    var scope :- RequireText(fields, "scope");
    if scope == "sector" then
      var sectorId :- RequireText(fields, "sector_id");
      Ok(Normalized(Hold(scope, sectorId, ""), false))
    else if scope == "group" then
      var groupId :- RequireText(fields, "group_id");
      Ok(Normalized(Hold(scope, "", groupId), false))
    else if scope == "global" then Ok(Normalized(Hold(scope, "", ""), false))
    else Err(InvalidFieldValue)
  }

  function Schema(a: ActionType, fields: map<string, Json>): (r: SchemaResult)
    ensures r.Ok? ==> TypeOf(r.value.params) == a && WellFormed(r.value.params)
  {
    match a
    case SetSectorPriority => PrioritizeSchema(fields)
    case DeployReserveGroup => DeploySchema(fields)
    case RepositionGroup => RepositionSchema(fields)
    case SetGroupPosture => PostureSchema(fields)
    case ReinforceControlPoint => ReinforceSchema(fields)
    case WithdrawGroup => WithdrawSchema(fields)
    case HoldAction => HoldSchema(fields)
  }

  const ENVELOPE := {"action_id", "id", "action_type", "coalition", "reason", "params"}

  /** Nested "params" first, overridden by every non-envelope key of the action itself. */
  function MergedParams(raw: RawAction): map<string, Json> {
    var nested := if Get(raw, "params").JObject? then Get(raw, "params").fields else map[];
    nested + (raw - ENVELOPE)
  }

  function DeclaredId(raw: RawAction): Json {
    if "action_id" in raw then raw["action_id"] else Get(raw, "id")
  }

  function ReadActionId(raw: RawAction): string {
    if IsText(DeclaredId(raw)) then DeclaredId(raw).text else "unknown_action"
  }

  function ParseRequest(raw: RawAction, c: Coalition): (r: ParseOutcome)
    ensures r.Parsed? ==> WellFormed(r.params)
    ensures r.Parsed? ==> Get(raw, "action_type") == JString(ActionTypeName(TypeOf(r.params)))
  {
    if "invalid_payload" in raw then Refused(None, InvalidFieldValue)
    else if !IsText(DeclaredId(raw)) then Refused(None, MissingRequiredField)
    else if !IsText(Get(raw, "action_type")) then Refused(None, MissingRequiredField)
    else
      match ParseActionType(Get(raw, "action_type").text)
      case None => Refused(None, UnknownActionType)
      case Some(a) =>
        if !IsText(Get(raw, "reason")) then Refused(Some(a), MissingRequiredField)
        else if Get(raw, "coalition") !in {JNull, JString(CoalitionName(c))} then Refused(Some(a), CoalitionMismatch)
        else
          match Schema(a, MergedParams(raw))
          case Err(code) => Refused(None, code)
          case Ok(n) => Parsed(n.params, n.duplicatesRemoved)
  }
}
