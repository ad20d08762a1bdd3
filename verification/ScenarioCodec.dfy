/** Loading a scenario from its dictionary form, and writing it back. */
module ScenarioCodec {
  import opened Domain
  import opened Requests
  import opened Toml

  /** The one error the model has: loading raises. */
  datatype LoadError = LoadError

  type Loaded<T> = Result<T, LoadError>

  /** How Python's int() and float() read strings. */
  datatype Casts = Casts(intOf: string -> Option<int>, floatOf: string -> Option<real>)

  // ----------------------------------------------------------------- field access

  function Find(fields: seq<Field>, key: string): Option<Value> {
    if fields == [] then None else if fields[0].key == key then Some(fields[0].value) else Find(fields[1..], key)
  }

  /** dict.get(key, default): a null that is there is not replaced. */
  function GetOr(fields: seq<Field>, key: string, default: Value): Value {
    if Find(fields, key).Some? then Find(fields, key).value else default
  }

  predicate NonBlank(v: Value) {
    v.VStr? && !IsBlank(v.text)
  }

  function NeedText(fields: seq<Field>, key: string): Loaded<string> {
    var v := GetOr(fields, key, VNull);
    if NonBlank(v) then Ok(v.text) else Err(LoadError)
  }

  function OptionalText(fields: seq<Field>, key: string): Loaded<Option<string>> {
    var v := GetOr(fields, key, VNull);
    if v.VNull? then Ok(None) else if NonBlank(v) then Ok(Some(v.text)) else Err(LoadError)
  }

  function TextsOf(items: seq<Value>): (r: seq<string>)
    requires forall v <- items :: NonBlank(v)
    ensures |r| == |items| && forall i :: 0 <= i < |r| ==> items[i] == VStr(r[i]) && !IsBlank(r[i])
  {
    assert forall i :: 0 <= i < |items| ==> NonBlank(items[i]);
    seq(|items|, i requires 0 <= i < |items| => items[i].text)
  }

  function OptionalTexts(fields: seq<Field>, key: string): Loaded<seq<string>> {
    var v := GetOr(fields, key, VList([]));
    if v.VList? && forall item <- v.items :: NonBlank(item) then Ok(TextsOf(v.items)) else Err(LoadError)
  }

  // Booleans count as integers.

  function IntOf(v: Value): Option<int> {
    match v
    case VInt(n) => Some(n)
    case VBool(b) => Some(if b then 1 else 0)
    case _ => None
  }

  function NumberOf(v: Value): Option<real> {
    match v
    case VFloat(x) => Some(x)
    case VInt(n) => Some(n as real)
    case VBool(b) => Some(if b then 1.0 else 0.0)
    case _ => None
  }

  function NeedInt(fields: seq<Field>, key: string, default: Value): Loaded<int> {
    var n := IntOf(GetOr(fields, key, default));
    if n.Some? then Ok(n.value) else Err(LoadError)
  }

  function NeedNumber(fields: seq<Field>, key: string): Loaded<real> {
    var x := NumberOf(GetOr(fields, key, VNull));
    if x.Some? then Ok(x.value) else Err(LoadError)
  }

  function OptionalNumber(fields: seq<Field>, key: string): Loaded<Option<real>> {
    var v := GetOr(fields, key, VNull);
    if v.VNull? then Ok(None) else if NumberOf(v).Some? then Ok(NumberOf(v)) else Err(LoadError)
  }

  /** Python truncates towards zero. */
  function Truncate(x: real): int {
    if x < 0.0 then -((-x).Floor) else x.Floor
  }

  function CastInt(casts: Casts, v: Value): Loaded<int> {
    var n := match v
      case VFloat(x) => Some(Truncate(x))
      case VStr(s) => casts.intOf(s)
      case _ => IntOf(v);
    if n.Some? then Ok(n.value) else Err(LoadError)
  }

  function CastFloat(casts: Casts, v: Value): Loaded<real> {
    var x := if v.VStr? then casts.floatOf(v.text) else NumberOf(v);
    if x.Some? then Ok(x.value) else Err(LoadError)
  }

  predicate Truth(v: Value) {
    match v
    case VNull => false
    case VBool(b) => b
    case VInt(n) => n != 0
    case VFloat(x) => x != 0.0
    case VStr(s) => s != ""
    case VList(items) => items != []
    case VDict(fields) => fields != []
  }

  function CoalitionOf(name: string): Loaded<Coalition> {
    if name == CoalitionName(Red) then Ok(Red) else if name == CoalitionName(Blue) then Ok(Blue) else Err(LoadError)
  }

  function PostureName(p: Posture): string {
    match p
    case Defensive => "defensive"
    case InReserve => "reserve"
    case Screening => "screening"
    case Supporting => "support"
    case Fallback => "fallback"
  }

  function PostureOf(name: string): Loaded<Posture> {
    match ParsePosture(name)
    case Ok(p) => Ok(p)
    case Err(_) => Err(LoadError)
  }

  function OptionalCoalition(name: Option<string>): Loaded<Option<Coalition>> {
    if name.None? then Ok(None)
    else
      var c :- CoalitionOf(name.value);
      Ok(Some(c))
  }

  // ------------------------------------------------------------------ the records

  function ParseSector(casts: Casts, fs: seq<Field>): Loaded<Sector> {
    var id :- NeedText(fs, "id");
    var name :- NeedText(fs, "name");
    var role :- NeedText(fs, "role");
    var neighborIds :- OptionalTexts(fs, "neighbor_ids");
    var tags :- OptionalTexts(fs, "tags");
    var lat :- OptionalNumber(fs, "center_lat");
    var lng :- OptionalNumber(fs, "center_lng");
    var radius :- CastFloat(casts, GetOr(fs, "radius_nm", VFloat(35.0)));
    Ok(Sector(id, name, role, neighborIds, tags, lat, lng, radius))
  }

  function ParseControlPoint(casts: Casts, fs: seq<Field>): Loaded<ControlPoint> {
    var ownerName :- OptionalText(fs, "owner");
    var owner :- OptionalCoalition(ownerName);
    var id :- NeedText(fs, "id");
    var name :- NeedText(fs, "name");
    var sectorId :- NeedText(fs, "sector_id");
    var kind :- NeedText(fs, "kind");
    var value :- NeedText(fs, "strategic_value");
    var lat :- OptionalNumber(fs, "lat");
    var lng :- OptionalNumber(fs, "lng");
    Ok(ControlPoint(id, name, sectorId, kind, owner, value, lat, lng))
  }

  function ParseOrder(c: Coalition, item: Value): Loaded<AuthoredOrder> {
    if !item.VDict? then Err(LoadError)
    else
      var id :- NeedText(item.fields, "id");
      var text :- NeedText(item.fields, "text");
      Ok(AuthoredOrder(id, c, text, Truth(GetOr(item.fields, "active", VBool(true)))))
  }

  function ParseOrders(c: Coalition, items: seq<Value>): Loaded<seq<AuthoredOrder>> {
    if items == [] then Ok([])
    else
      var first :- ParseOrder(c, items[0]);
      var more :- ParseOrders(c, items[1..]);
      Ok([first] + more)
  }

  function ParseCoalition(casts: Casts, fs: seq<Field>): Loaded<CoalitionState> {
    var name :- NeedText(fs, "coalition");
    var c :- CoalitionOf(name);
    var orders := GetOr(fs, "standing_orders", VList([]));
    if !orders.VList? then Err(LoadError)
    else
      var standing :- ParseOrders(c, orders.items);
      var objectives :- OptionalTexts(fs, "objectives");
      var budget :- NeedInt(fs, "budget_remaining", VNull);
      var attrition :- NeedInt(fs, "attrition_pool", VInt(0));
      var replacement :- NeedInt(fs, "replacement_pool", VInt(0));
      var reserveIds :- OptionalTexts(fs, "reserve_ids");
      Ok(CoalitionState(c, objectives, budget, reserveIds, standing, attrition, replacement))
  }

  function ParseActiveGroup(casts: Casts, fs: seq<Field>): Loaded<ActiveGroup> {
    var id :- NeedText(fs, "id");
    var name :- NeedText(fs, "coalition");
    var c :- CoalitionOf(name);
    var groupType :- NeedText(fs, "group_type");
    var postureName :- NeedText(fs, "posture");
    var posture :- PostureOf(postureName);
    var sectorId :- OptionalText(fs, "sector_id");
    var status :- NeedText(fs, "status");
    var point :- OptionalText(fs, "control_point_id");
    var attrition :- CastInt(casts, GetOr(fs, "attrition_count", VInt(0)));
    var pool :- CastInt(casts, GetOr(fs, "replacement_pool", VInt(0)));
    Ok(ActiveGroup(id, c, groupType, posture, sectorId, Truth(GetOr(fs, "mobile", VBool(true))), status, point, attrition, pool))
  }

  function ParseReserveGroup(casts: Casts, fs: seq<Field>): Loaded<ReserveGroup> {
    var cost :- NeedInt(fs, "cost", VNull);
    var id :- NeedText(fs, "id");
    var name :- NeedText(fs, "coalition");
    var c :- CoalitionOf(name);
    var groupType :- NeedText(fs, "group_type");
    var allowed :- OptionalTexts(fs, "allowed_sector_ids");
    var status :- NeedText(fs, "status");
    var attrition :- CastInt(casts, GetOr(fs, "attrition_count", VInt(0)));
    var pool :- CastInt(casts, GetOr(fs, "replacement_pool", VInt(0)));
    Ok(ReserveGroup(id, c, groupType, Truth(GetOr(fs, "available", VBool(true))), cost, allowed, status,
                    Truth(GetOr(fs, "emergency", VBool(false))), attrition, pool))
  }

  function ParseZone(casts: Casts, fs: seq<Field>): Loaded<Zone> {
    var lat :- NeedNumber(fs, "center_lat");
    var lng :- NeedNumber(fs, "center_lng");
    var radius :- NeedNumber(fs, "radius_nm");
    if radius <= 0.0 then Err(LoadError)
    else
      var id :- NeedText(fs, "id");
      var name :- NeedText(fs, "name");
      var sectorId :- NeedText(fs, "sector_id");
      var tags :- OptionalTexts(fs, "tags");
      Ok(Zone(id, name, sectorId, lat, lng, radius, tags))
  }

  function ParseRestriction(casts: Casts, fs: seq<Field>): Loaded<Restriction> {
    var name :- OptionalText(fs, "coalition");
    var c :- OptionalCoalition(name);
    var id :- NeedText(fs, "id");
    var restrictionType :- NeedText(fs, "restriction_type");
    var description :- NeedText(fs, "description");
    var sectorIds :- OptionalTexts(fs, "sector_ids");
    var pointIds :- OptionalTexts(fs, "control_point_ids");
    Ok(Restriction(id, c, restrictionType, description, sectorIds, pointIds,
                   Truth(GetOr(fs, "adjacency_limited", VBool(false)))))
  }

  function ParseAll<T>(items: seq<Value>, parse: seq<Field> -> Loaded<T>): Loaded<seq<T>> {
    if items == [] then Ok([])
    else if !items[0].VDict? then Err(LoadError)
    else
      var first :- parse(items[0].fields);
      var more :- ParseAll(items[1..], parse);
      Ok([first] + more)
  }

  /** The entries under a key; an empty string or table has none, anything else but an array
      cannot be gone through or has entries that are no tables. */
  function Entries(v: Value): Loaded<seq<Value>> {
    if v.VList? then Ok(v.items)
    else if (v.VStr? && v.text == "") || (v.VDict? && v.fields == []) then Ok([])
    else Err(LoadError)
  }

  function Required(v: Value): Loaded<seq<Value>> {
    if v.VList? && v.items != [] then Ok(v.items) else Err(LoadError)
  }

  // ------------------------------------------------------------- checks and loading

  predicate SectorExists(sectors: seq<Sector>, id: string) {
    exists s <- sectors :: s.id == id
  }

  predicate CoalitionExists(cs: seq<CoalitionState>, c: Coalition) {
    exists s <- cs :: s.coalition == c
  }

  /** Every reference between records leads to a record. */
  predicate Consistent(sc: Scenario) {
    && (forall s <- sc.sectors :: forall n <- s.neighborIds :: SectorExists(sc.sectors, n))
    && (forall p <- sc.controlPoints :: SectorExists(sc.sectors, p.sectorId))
    && (forall g <- sc.activeGroups ::
          && (g.sectorId.Some? ==> SectorExists(sc.sectors, g.sectorId.value))
          && CoalitionExists(sc.coalitions, g.coalition))
    && (forall r <- sc.reserveGroups ::
          CoalitionExists(sc.coalitions, r.coalition) && forall a <- r.allowedSectorIds :: SectorExists(sc.sectors, a))
    && (forall z <- sc.zones :: SectorExists(sc.sectors, z.sectorId))
  }

  /** The loader's five checking loops, leaving at the first dangling reference. */
  method CheckReferences(sc: Scenario) returns (ok: bool)
    ensures ok == Consistent(sc)
  {
    var sectorIds := set s <- sc.sectors :: s.id;
    var coalitions := set c <- sc.coalitions :: c.coalition;
    assert forall id :: id in sectorIds <==> SectorExists(sc.sectors, id);
    assert forall c :: c in coalitions <==> CoalitionExists(sc.coalitions, c);
    hide SectorExists, CoalitionExists;
    for i := 0 to |sc.sectors|
      invariant forall s <- sc.sectors[..i] :: forall n <- s.neighborIds :: SectorExists(sc.sectors, n)
    {
      if exists n <- sc.sectors[i].neighborIds :: n !in sectorIds {
        return false;
      }
      PrefixStep(sc.sectors, i);
    }
    for i := 0 to |sc.controlPoints|
      invariant forall p <- sc.controlPoints[..i] :: SectorExists(sc.sectors, p.sectorId)
    {
      if sc.controlPoints[i].sectorId !in sectorIds {
        return false;
      }
      PrefixStep(sc.controlPoints, i);
    }
    for i := 0 to |sc.activeGroups|
      invariant forall g <- sc.activeGroups[..i] ::
        && (g.sectorId.Some? ==> SectorExists(sc.sectors, g.sectorId.value))
        && CoalitionExists(sc.coalitions, g.coalition)
    {
      var g := sc.activeGroups[i];
      if g.sectorId.Some? && g.sectorId.value !in sectorIds {
        return false;
      }
      if g.coalition !in coalitions {
        return false;
      }
      PrefixStep(sc.activeGroups, i);
    }
    for i := 0 to |sc.reserveGroups|
      invariant forall r <- sc.reserveGroups[..i] ::
        CoalitionExists(sc.coalitions, r.coalition) && forall a <- r.allowedSectorIds :: SectorExists(sc.sectors, a)
    {
      var r := sc.reserveGroups[i];
      if r.coalition !in coalitions {
        return false;
      }
      if exists a <- r.allowedSectorIds :: a !in sectorIds {
        return false;
      }
      PrefixStep(sc.reserveGroups, i);
    }
    for i := 0 to |sc.zones|
      invariant forall z <- sc.zones[..i] :: SectorExists(sc.sectors, z.sectorId)
    {
      if sc.zones[i].sectorId !in sectorIds {
        return false;
      }
      PrefixStep(sc.zones, i);
    }
    ok := true;
    assert sc.sectors[..|sc.sectors|] == sc.sectors && sc.controlPoints[..|sc.controlPoints|] == sc.controlPoints;
    assert sc.activeGroups[..|sc.activeGroups|] == sc.activeGroups && sc.zones[..|sc.zones|] == sc.zones;
    assert sc.reserveGroups[..|sc.reserveGroups|] == sc.reserveGroups;
  }

  /** The records, before their references are checked. */
  function ParseRecords(casts: Casts, raw: seq<Field>): Loaded<Scenario> {
    var none := VList([]);
    var sectorItems :- Required(GetOr(raw, "sectors", none));
    var pointItems :- Required(GetOr(raw, "control_points", none));
    var coalitionItems :- Required(GetOr(raw, "coalitions", none));
    var groupItems :- Entries(GetOr(raw, "active_groups", none));
    var reserveItems :- Entries(GetOr(raw, "reserve_groups", none));
    var zoneItems :- Entries(GetOr(raw, "zones", none));
    var restrictionItems :- Entries(GetOr(raw, "deployment_restrictions", none));
    var sectors :- ParseAll(sectorItems, fs => ParseSector(casts, fs));
    var points :- ParseAll(pointItems, fs => ParseControlPoint(casts, fs));
    var coalitions :- ParseAll(coalitionItems, fs => ParseCoalition(casts, fs));
    var groups :- ParseAll(groupItems, fs => ParseActiveGroup(casts, fs));
    var reserves :- ParseAll(reserveItems, fs => ParseReserveGroup(casts, fs));
    var zones :- ParseAll(zoneItems, fs => ParseZone(casts, fs));
    var restrictions :- ParseAll(restrictionItems, fs => ParseRestriction(casts, fs));
    var id :- NeedText(raw, "id");
    var version :- NeedText(raw, "version");
    var name :- NeedText(raw, "name");
    var theater :- NeedText(raw, "theater");
    var summary :- NeedText(raw, "summary");
    Ok(Scenario(id, version, name, theater, summary, sectors, points, coalitions, groups, reserves, zones, restrictions))
  }

  function Load(casts: Casts, raw: seq<Field>): Loaded<Scenario> {
    var sc :- ParseRecords(casts, raw);
    if Consistent(sc) then Ok(sc) else Err(LoadError)
  }

  method LoadScenario(casts: Casts, raw: seq<Field>) returns (result: Loaded<Scenario>)
    ensures result == Load(casts, raw)
  {
    result := ParseRecords(casts, raw);
    if result.Ok? {
      var ok := CheckReferences(result.value);
      if !ok {
        result := Err(LoadError);
      }
    }
  }

  // ------------------------------------------------------------- the dictionary form

  function TextList(items: seq<string>): (r: Value)
    ensures r.VList? && |r.items| == |items| && forall i :: 0 <= i < |items| ==> r.items[i] == VStr(items[i])
  {
    VList(seq(|items|, i requires 0 <= i < |items| => VStr(items[i])))
  }

  function MaybeText(s: Option<string>): Value {
    if s.Some? then VStr(s.value) else VNull
  }

  function MaybeNumber(x: Option<real>): Value {
    if x.Some? then VFloat(x.value) else VNull
  }

  function MaybeCoalition(c: Option<Coalition>): Value {
    if c.Some? then VStr(CoalitionName(c.value)) else VNull
  }

  function SectorFields(s: Sector): seq<Field> {
    [Field("id", VStr(s.id)), Field("name", VStr(s.name)), Field("role", VStr(s.role)),
     Field("neighbor_ids", TextList(s.neighborIds)), Field("tags", TextList(s.tags)),
     Field("center_lat", MaybeNumber(s.centerLat)), Field("center_lng", MaybeNumber(s.centerLng)),
     Field("radius_nm", VFloat(s.radiusNm))]
  }

  function PointFields(p: ControlPoint): seq<Field> {
    [Field("id", VStr(p.id)), Field("name", VStr(p.name)), Field("sector_id", VStr(p.sectorId)), Field("kind", VStr(p.kind)),
     Field("owner", MaybeCoalition(p.owner)), Field("strategic_value", VStr(p.strategicValue)),
     Field("lat", MaybeNumber(p.lat)), Field("lng", MaybeNumber(p.lng))]
  }

  function OrderFields(o: AuthoredOrder): seq<Field> {
    [Field("id", VStr(o.id)), Field("text", VStr(o.text)), Field("active", VBool(o.active))]
  }

  function OrderItems(os: seq<AuthoredOrder>): (r: seq<Value>)
    ensures |r| == |os| && forall i :: 0 <= i < |r| ==> r[i] == VDict(OrderFields(os[i]))
  {
    seq(|os|, i requires 0 <= i < |os| => VDict(OrderFields(os[i])))
  }

  function CoalitionFields(c: CoalitionState): seq<Field> {
    [Field("coalition", VStr(CoalitionName(c.coalition))), Field("budget_remaining", VInt(c.budgetRemaining)),
     Field("objectives", TextList(c.objectives)), Field("reserve_ids", TextList(c.reserveIds)),
     Field("standing_orders", VList(OrderItems(c.standingOrders))), Field("attrition_pool", VInt(c.attritionPool)),
     Field("replacement_pool", VInt(c.replacementPool))]
  }

  function GroupFields(g: ActiveGroup): seq<Field> {
    [Field("id", VStr(g.id)), Field("coalition", VStr(CoalitionName(g.coalition))), Field("group_type", VStr(g.groupType)),
     Field("posture", VStr(PostureName(g.posture))), Field("sector_id", MaybeText(g.sectorId)), Field("mobile", VBool(g.mobile)),
     Field("status", VStr(g.status)), Field("control_point_id", MaybeText(g.controlPointId)),
     Field("attrition_count", VInt(g.attritionCount)), Field("replacement_pool", VInt(g.replacementPool))]
  }

  function ReserveFields(r: ReserveGroup): seq<Field> {
    [Field("id", VStr(r.id)), Field("coalition", VStr(CoalitionName(r.coalition))), Field("group_type", VStr(r.groupType)),
     Field("available", VBool(r.available)), Field("cost", VInt(r.cost)), Field("allowed_sector_ids", TextList(r.allowedSectorIds)),
     Field("status", VStr(r.status)), Field("emergency", VBool(r.emergency)), Field("attrition_count", VInt(r.attritionCount)),
     Field("replacement_pool", VInt(r.replacementPool))]
  }

  function ZoneFields(z: Zone): seq<Field> {
    [Field("id", VStr(z.id)), Field("name", VStr(z.name)), Field("sector_id", VStr(z.sectorId)),
     Field("center_lat", VFloat(z.centerLat)), Field("center_lng", VFloat(z.centerLng)), Field("radius_nm", VFloat(z.radiusNm)),
     Field("tags", TextList(z.tags))]
  }

  function RestrictionFields(r: Restriction): seq<Field> {
    [Field("id", VStr(r.id)), Field("coalition", MaybeCoalition(r.coalition)), Field("restriction_type", VStr(r.restrictionType)),
     Field("description", VStr(r.description)), Field("sector_ids", TextList(r.sectorIds)),
     Field("control_point_ids", TextList(r.controlPointIds)), Field("adjacency_limited", VBool(r.adjacencyLimited))]
  }

  function DictsOf<T>(items: seq<T>, fields: T -> seq<Field>): (r: seq<Value>)
    ensures |r| == |items| && forall i :: 0 <= i < |r| ==> r[i] == VDict(fields(items[i]))
  {
    seq(|items|, i requires 0 <= i < |items| => VDict(fields(items[i])))
  }

  function HeadFields(sc: Scenario): seq<Field> {
    [Field("id", VStr(sc.id)), Field("version", VStr(sc.version)), Field("name", VStr(sc.name)),
     Field("theater", VStr(sc.theater)), Field("summary", VStr(sc.summary))]
  }

  function ToDict(sc: Scenario): seq<Field> {
    HeadFields(sc)
    + [Field("sectors", VList(DictsOf(sc.sectors, SectorFields))),
       Field("control_points", VList(DictsOf(sc.controlPoints, PointFields))),
       Field("coalitions", VList(DictsOf(sc.coalitions, CoalitionFields))),
       Field("active_groups", VList(DictsOf(sc.activeGroups, GroupFields))),
       Field("reserve_groups", VList(DictsOf(sc.reserveGroups, ReserveFields))),
       Field("zones", VList(DictsOf(sc.zones, ZoneFields))),
       Field("deployment_restrictions", VList(DictsOf(sc.restrictions, RestrictionFields)))]
  }
}
