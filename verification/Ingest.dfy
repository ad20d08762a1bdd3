/** Taking simulator updates into the world truth: placing positions in sectors, and folding
    unit, airfield and stream updates into the group map and the evidence log. */
module Ingest {
  import opened Domain
  import opened Requests
  import opened Fusion

  // -------------------------------------------------------------- nearest sector

  /** Distance in nautical miles between two positions; any function with real values. */
  type Distance = (real, real, real, real) -> real

  predicate Located(s: Sector) {
    s.centerLat.Some? && s.centerLng.Some?
  }

  function DistanceTo(d: Distance, lat: real, lng: real, s: Sector): real
    requires Located(s)
  {
    d(lat, lng, s.centerLat.value, s.centerLng.value)
  }

  predicate Within(d: Distance, lat: real, lng: real, s: Sector) {
    Located(s) && DistanceTo(d, lat, lng, s) <= s.radiusNm
  }

  predicate Eligible(d: Distance, lat: real, lng: real, s: Sector, within: bool) {
    Located(s) && (within ==> Within(d, lat, lng, s))
  }

  /** Sector i is the closest eligible one, and the first of those equally close. */
  ghost predicate Closest(d: Distance, lat: real, lng: real, sectors: seq<Sector>, within: bool, i: int) {
    && 0 <= i < |sectors| && Eligible(d, lat, lng, sectors[i], within)
    && (forall j :: 0 <= j < |sectors| && Eligible(d, lat, lng, sectors[j], within) ==>
          DistanceTo(d, lat, lng, sectors[i]) <= DistanceTo(d, lat, lng, sectors[j]))
    && (forall j :: 0 <= j < i && Eligible(d, lat, lng, sectors[j], within) ==>
          DistanceTo(d, lat, lng, sectors[i]) < DistanceTo(d, lat, lng, sectors[j]))
  }

  ghost predicate NoneEligible(d: Distance, lat: real, lng: real, sectors: seq<Sector>, within: bool) {
    forall j :: 0 <= j < |sectors| ==> !Eligible(d, lat, lng, sectors[j], within)
  }

  /** What the search promises: the closest sector that contains the position, else the closest
      sector, else nothing; the first one on ties. */
  ghost predicate SectorAnswer(d: Distance, lat: real, lng: real, sectors: seq<Sector>, r: Option<string>) {
    match r
    case None => NoneEligible(d, lat, lng, sectors, false)
    case Some(id) =>
      exists i ::
        && 0 <= i < |sectors| && sectors[i].id == id
        && if NoneEligible(d, lat, lng, sectors, true) then Closest(d, lat, lng, sectors, false, i)
           else Closest(d, lat, lng, sectors, true, i)
  }

  /** One pass over the sectors. */
  method ScanSectors(d: Distance, lat: real, lng: real, sectors: seq<Sector>, within: bool) returns (best: Option<nat>)
    ensures best.None? ==> NoneEligible(d, lat, lng, sectors, within)
    ensures best.Some? ==> Closest(d, lat, lng, sectors, within, best.value)
  {
    best := None;
    var bestDistance: Option<real> := None;
    for i := 0 to |sectors|
      invariant best.None? <==> bestDistance.None?
      invariant best.None? ==> NoneEligible(d, lat, lng, sectors[..i], within)
      invariant best.Some? ==>
        && Closest(d, lat, lng, sectors[..i], within, best.value)
        && bestDistance == Some(DistanceTo(d, lat, lng, sectors[best.value]))
    {
      if !Located(sectors[i]) {
        continue;
      }
      var distance := DistanceTo(d, lat, lng, sectors[i]);
      if (within ==> distance <= sectors[i].radiusNm) && (bestDistance.None? || distance < bestDistance.value) {
        bestDistance := Some(distance);
        best := Some(i);
      }
    }
    assert sectors[..|sectors|] == sectors;
  }

  lemma SectorAnswerIsUnique(
      d: Distance, lat: real, lng: real, sectors: seq<Sector>, r: Option<string>, s: Option<string>)
    requires SectorAnswer(d, lat, lng, sectors, r) && SectorAnswer(d, lat, lng, sectors, s)
    ensures r == s
  {
    if r.Some? && s.Some? {
      var within := !NoneEligible(d, lat, lng, sectors, true);
      var i :| 0 <= i < |sectors| && sectors[i].id == r.value && Closest(d, lat, lng, sectors, within, i);
      var j :| 0 <= j < |sectors| && sectors[j].id == s.value && Closest(d, lat, lng, sectors, within, j);
      assert i == j;
    }
  }

  /** The search as the source runs it: containing sectors first, then all of them. */
  method FindSectorForPosition(d: Distance, sectors: seq<Sector>, lat: Option<real>, lng: Option<real>)
      returns (r: Option<string>)
    ensures r == SectorFor(d, sectors, lat, lng)
  {
    if lat.None? || lng.None? {
      return None;
    }
    var best := ScanSectors(d, lat.value, lng.value, sectors, true);
    if best.None? {
      best := ScanSectors(d, lat.value, lng.value, sectors, false);
    }
    r := if best.Some? then Some(sectors[best.value].id) else None;
    SearchMeaning(d, sectors, lat.value, lng.value);
    SectorAnswerIsUnique(d, lat.value, lng.value, sectors, r, SectorFor(d, sectors, lat, lng));
  }

  // The same search as a function, for specifications.

  function Scan(d: Distance, lat: real, lng: real, sectors: seq<Sector>, within: bool): (r: Option<nat>)
    ensures r.Some? ==> r.value < |sectors| && Eligible(d, lat, lng, sectors[r.value], within)
  {
    if sectors == [] then None
    else
      var n := |sectors| - 1;
      var best := Scan(d, lat, lng, sectors[..n], within);
      if !Eligible(d, lat, lng, sectors[n], within) then best
      else if best.None? || DistanceTo(d, lat, lng, sectors[n]) < DistanceTo(d, lat, lng, sectors[best.value]) then Some(n)
      else best
  }

  lemma {:induction false} ScanMeaning(d: Distance, lat: real, lng: real, sectors: seq<Sector>, within: bool)
    ensures var r := Scan(d, lat, lng, sectors, within);
      if r.None? then NoneEligible(d, lat, lng, sectors, within) else Closest(d, lat, lng, sectors, within, r.value)
  {
    if sectors != [] {
      ScanMeaning(d, lat, lng, sectors[..|sectors| - 1], within);
    }
  }

  function SectorFor(d: Distance, sectors: seq<Sector>, lat: Option<real>, lng: Option<real>): Option<string> {
    if lat.None? || lng.None? then None
    else
      var containing := Scan(d, lat.value, lng.value, sectors, true);
      var best := if containing.Some? then containing else Scan(d, lat.value, lng.value, sectors, false);
      if best.Some? then Some(sectors[best.value].id) else None
  }

  lemma SearchMeaning(d: Distance, sectors: seq<Sector>, lat: real, lng: real)
    ensures SectorAnswer(d, lat, lng, sectors, SectorFor(d, sectors, Some(lat), Some(lng)))
  {
    ScanMeaning(d, lat, lng, sectors, true);
    ScanMeaning(d, lat, lng, sectors, false);
  }

  // ----------------------------------------------------------------- the updates

  datatype MissionSnapshot = MissionSnapshot(missionTime: Option<string>, payload: Json)

  datatype UnitSnapshot = UnitSnapshot(
    unitId: string, name: Option<string>, unitType: Option<string>, category: Option<string>, coalition: Option<string>,
    lat: Option<real>, lng: Option<real>, alt: Option<real>, heading: Option<real>, speed: Option<real>, health: Option<real>,
    fields: map<string, Json>)

  datatype AirfieldSnapshot = AirfieldSnapshot(
    airfieldId: string, name: Option<string>, owner: Option<string>, payload: Json)

  datatype StreamEvent = StreamEvent(
    streamName: string, entityId: string, eventType: string, coalition: Option<string>, payload: map<string, Json>)

  datatype Metadata = Metadata(missionTime: string, payload: Json)

  /** Everything one call may bring in. */
  datatype Update = Update(
    mission: Option<MissionSnapshot>, metadata: Option<Metadata>, units: seq<UnitSnapshot>,
    airfields: seq<AirfieldSnapshot>, events: seq<StreamEvent>, at: int)

  datatype Truth = Truth(
    missionTime: Option<string>, groups: map<string, WorldGroup>, points: map<string, WorldControlPoint>,
    evidence: seq<Evidence>)

  /** What the updater is configured with: the scenario, the distance function and the text
      Python's str() gives for values that are not strings. */
  datatype Setup = Setup(scenario: Scenario, distance: Distance, text: Json -> string)

  // --------------------------------------------------------- reading loose values

  function CoalitionOrNone(name: Option<string>): Option<Coalition> {
    if name == Some("red") then Some(Red) else if name == Some("blue") then Some(Blue) else None
  }

  function JsonCoalition(v: Json): Option<Coalition> {
    if v.JString? then CoalitionOrNone(Some(v.text)) else None
  }

  /** Booleans count as numbers here, as they do in Python. */
  function OptionalFloat(v: Json): Option<real> {
    match v
    case JNumber(x) => Some(x)
    case JBool(b) => Some(if b then 1.0 else 0.0)
    case _ => None
  }

  function OptionalText(v: Json): Option<string> {
    if IsText(v) then Some(v.text) else None
  }

  predicate JsonTruthy(v: Json) {
    match v
    case JNull => false
    case JBool(b) => b
    case JNumber(x) => x != 0.0
    case JString(t) => t != ""
    case JArray(items) => items != []
    case JObject(fields) => |fields| > 0
  }

  function Or(a: Json, b: Json): Json {
    if JsonTruthy(a) then a else b
  }

  function AsText(setup: Setup, v: Json): string {
    if v.JString? then v.text else setup.text(v)
  }

  function TruthyOr(a: Option<string>, b: Option<string>): Option<string> {
    if Truthy(a) then a else b
  }

  predicate Moving(speed: Option<real>) {
    speed.Some? && speed.value > 0.0
  }

  predicate HighValueWords(unitType: Option<string>, category: Option<string>) {
    var text := Lower(
      if Truthy(unitType) && Truthy(category) then unitType.value + " " + category.value
      else if Truthy(unitType) then unitType.value
      else if Truthy(category) then category.value
      else "");
    Contains(text, "sam") || Contains(text, "air_defense") || Contains(text, "radar") || Contains(text, "fires")
  }

  function Named(c: Option<Coalition>): Json {
    if c.Some? then JString(CoalitionName(c.value)) else JNull
  }

  // ------------------------------------------------------------------- one update

  function Log(t: Truth, e: Evidence): Truth {
    t.(evidence := t.evidence + [e])
  }

  function TakeMission(t: Truth, m: MissionSnapshot, at: int): Truth {
    Log(t.(missionTime := TruthyOr(m.missionTime, t.missionTime)),
        Evidence("olympus", "olympus_mission_snapshot", None, None, None, at, m.payload))
  }

  function TakeMetadata(t: Truth, m: Metadata, at: int): Truth {
    Log(t.(missionTime := TruthyOr(Some(m.missionTime), t.missionTime)),
        Evidence("dcs_grpc", "grpc_mission_metadata", None, None, None, at, m.payload))
  }

  function UnitGroup(setup: Setup, existing: Option<WorldGroup>, u: UnitSnapshot, at: int): WorldGroup {
    WorldGroup(
      u.unitId, u.unitId, CoalitionOrNone(u.coalition),
      if Truthy(u.unitType) then u.unitType.value else if existing.Some? then existing.value.groupType else "unknown_group",
      u.category, u.name,
      TruthyOr(SectorFor(setup.distance, setup.scenario.sectors, u.lat, u.lng), if existing.Some? then existing.value.sectorId else None),
      if existing.Some? then existing.value.controlPointId else None,
      u.lat, u.lng, u.alt, u.heading, u.speed, u.health, "olympus", at, HighValueWords(u.unitType, u.category),
      Moving(u.speed) || (if existing.Some? then existing.value.mobile else true))
  }

  function TakeUnit(setup: Setup, t: Truth, u: UnitSnapshot, at: int): Truth {
    var owner := CoalitionOrNone(u.coalition);
    Log(t.(groups := t.groups[u.unitId := UnitGroup(setup, Lookup(t.groups, u.unitId), u, at)]),
        Evidence("olympus", "olympus_unit_snapshot", Some(u.unitId), owner,
                 SectorFor(setup.distance, setup.scenario.sectors, u.lat, u.lng), at,
                 JObject(u.fields["observed_by" := Named(owner)])))
  }

  function PointByName(points: seq<ControlPoint>, name: Option<string>): Option<string> {
    if points == [] then None
    else if Truthy(name) && points[0].name == name.value then Some(points[0].id)
    else PointByName(points[1..], name)
  }

  function PointOf(sc: Scenario, a: AirfieldSnapshot): Option<string> {
    if exists p <- sc.controlPoints :: p.id == a.airfieldId then Some(a.airfieldId)
    else PointByName(sc.controlPoints, a.name)
  }

  function FirstPoint(points: seq<ControlPoint>, id: string): Option<ControlPoint> {
    if points == [] then None else if points[0].id == id then Some(points[0]) else FirstPoint(points[1..], id)
  }

  // Only asked for ids PointOf has found, so one of the points always has it.
  function PointSector(sc: Scenario, id: string): string {
    match FirstPoint(sc.controlPoints, id)
    case Some(p) => p.sectorId
    case None => if sc.sectors != [] then sc.sectors[0].id else ""
  }

  function TakeAirfield(setup: Setup, t: Truth, a: AirfieldSnapshot, at: int): Truth {
    match PointOf(setup.scenario, a)
    case None => t
    case Some(id) =>
      var owner := CoalitionOrNone(a.owner);
      var sector := if id in t.points then t.points[id].sectorId else PointSector(setup.scenario, id);
      Log(t.(points := t.points[id := WorldControlPoint(id, owner, sector, at, "olympus")]),
          Evidence("olympus", "olympus_airfield_snapshot", Some(id), owner, Some(sector), at, a.payload))
  }

  function EventSector(setup: Setup, e: StreamEvent): Option<string> {
    TruthyOr(OptionalText(Get(e.payload, "sector_id")),
             SectorFor(setup.distance, setup.scenario.sectors, OptionalFloat(Get(e.payload, "lat")), OptionalFloat(Get(e.payload, "lng"))))
  }

  function EventGroupId(setup: Setup, e: StreamEvent): string {
    if e.entityId != "" then e.entityId
    else AsText(setup, Or(Or(Get(e.payload, "unit_id"), Get(e.payload, "event_id")), JString("unknown")))
  }

  function EventObserver(e: StreamEvent): Option<Coalition> {
    if Truthy(e.coalition) then CoalitionOrNone(e.coalition) else JsonCoalition(Get(e.payload, "observed_by"))
  }

  function EventGroupType(setup: Setup, existing: Option<WorldGroup>, e: StreamEvent): string {
    AsText(setup, Or(Or(Or(Get(e.payload, "group_type"), Get(e.payload, "unit_type")), Get(e.payload, "category")),
                     JString(if existing.Some? then existing.value.groupType else "unknown_group")))
  }

  function EventGroup(setup: Setup, existing: Option<WorldGroup>, e: StreamEvent, at: int): WorldGroup {
    var id := EventGroupId(setup, e);
    var target := JsonCoalition(Get(e.payload, "target_coalition"));
    var speed := OptionalFloat(Get(e.payload, "speed"));
    WorldGroup(
      id, id, if target.Some? then target else if existing.Some? then existing.value.coalition else None,
      EventGroupType(setup, existing, e),
      OptionalText(Get(e.payload, "category")),
      TruthyOr(OptionalText(Get(e.payload, "name")), if existing.Some? then existing.value.name else None),
      TruthyOr(EventSector(setup, e), if existing.Some? then existing.value.sectorId else None),
      if existing.Some? then existing.value.controlPointId else None,
      OptionalFloat(Get(e.payload, "lat")), OptionalFloat(Get(e.payload, "lng")), OptionalFloat(Get(e.payload, "alt")),
      OptionalFloat(Get(e.payload, "heading")), speed, OptionalFloat(Get(e.payload, "health")), "dcs_grpc", at,
      HighValueWords(OptionalText(Get(e.payload, "unit_type")), OptionalText(Get(e.payload, "category"))),
      Moving(speed) || (if existing.Some? then existing.value.mobile else true))
  }

  function TakeEvent(setup: Setup, t: Truth, e: StreamEvent, at: int): Truth {
    var id, observer := EventGroupId(setup, e), EventObserver(e);
    var t' := if e.streamName == "stream_units" then t.(groups := t.groups[id := EventGroup(setup, Lookup(t.groups, id), e, at)]) else t;
    Log(t', Evidence("dcs_grpc", "grpc_" + e.streamName, Some(id), observer, EventSector(setup, e), at,
                     JObject(e.payload["event_type" := JString(e.eventType)]["observed_by" := Named(observer)])))
  }

  // -------------------------------------------------------------------- the folds

  function TakeUnits(setup: Setup, t: Truth, us: seq<UnitSnapshot>, at: int): Truth {
    if us == [] then t else TakeUnit(setup, TakeUnits(setup, t, us[..|us| - 1], at), us[|us| - 1], at)
  }

  function TakeAirfields(setup: Setup, t: Truth, fields: seq<AirfieldSnapshot>, at: int): Truth {
    if fields == [] then t
    else TakeAirfield(setup, TakeAirfields(setup, t, fields[..|fields| - 1], at), fields[|fields| - 1], at)
  }

  function TakeEvents(setup: Setup, t: Truth, es: seq<StreamEvent>, at: int): Truth {
    if es == [] then t else TakeEvent(setup, TakeEvents(setup, t, es[..|es| - 1], at), es[|es| - 1], at)
  }

  function Take(setup: Setup, t: Truth, u: Update): Truth {
    var t1 := if u.mission.Some? then TakeMission(t, u.mission.value, u.at) else t;
    var t2 := if u.metadata.Some? then TakeMetadata(t1, u.metadata.value, u.at) else t1;
    TakeEvents(setup, TakeAirfields(setup, TakeUnits(setup, t2, u.units, u.at), u.airfields, u.at), u.events, u.at)
  }

  function TakeAll(setup: Setup, t: Truth, us: seq<Update>): Truth {
    if us == [] then t else Take(setup, TakeAll(setup, t, us[..|us| - 1]), us[|us| - 1])
  }

  /** The updater's three loops over its own copies of the tables. */
  method ApplyIntegrationUpdates(setup: Setup, current: Truth, u: Update) returns (truth: Truth)
    ensures truth == Take(setup, current, u)
  {
    hide TakeUnit, TakeAirfield, TakeEvent, TakeMission, TakeMetadata;
    truth := current;
    if u.mission.Some? {
      truth := TakeMission(truth, u.mission.value, u.at);
    }
    if u.metadata.Some? {
      truth := TakeMetadata(truth, u.metadata.value, u.at);
    }
    ghost var before := truth;
    for i := 0 to |u.units|
      invariant truth == TakeUnits(setup, before, u.units[..i], u.at)
    {
      PrefixStep(u.units, i);
      truth := TakeUnit(setup, truth, u.units[i], u.at);
    }
    assert u.units[..|u.units|] == u.units;
    ghost var afterUnits := truth;
    for i := 0 to |u.airfields|
      invariant truth == TakeAirfields(setup, afterUnits, u.airfields[..i], u.at)
    {
      PrefixStep(u.airfields, i);
      truth := TakeAirfield(setup, truth, u.airfields[i], u.at);
    }
    assert u.airfields[..|u.airfields|] == u.airfields;
    ghost var afterAirfields := truth;
    for i := 0 to |u.events|
      invariant truth == TakeEvents(setup, afterAirfields, u.events[..i], u.at)
    {
      PrefixStep(u.events, i);
      truth := TakeEvent(setup, truth, u.events[i], u.at);
    }
    assert u.events[..|u.events|] == u.events;
  }

  // --------------------------------------------------------- what ingest never does

  /** One group's record later in a run. */
  predicate GroupKept(before: WorldGroup, after: WorldGroup) {
    && after.id == before.id
    && (before.sectorId.Some? ==> after.sectorId.Some?)
    && (Truthy(before.sectorId) ==> Truthy(after.sectorId))
    && (before.mobile ==> after.mobile)
    && after.controlPointId == before.controlPointId
  }

  /** Nothing is forgotten: groups and points never vanish, a known sector stays known, mobile
      never turns off, points never change sector, and evidence is only ever appended. */
  ghost predicate Remembers(t: Truth, t': Truth) {
    && (forall g <- t.groups :: g in t'.groups && GroupKept(t.groups[g], t'.groups[g]))
    && (forall p <- t.points :: p in t'.points && t'.points[p].sectorId == t.points[p].sectorId)
    && t.evidence <= t'.evidence
    && (Truthy(t.missionTime) ==> Truthy(t'.missionTime))
  }

  ghost predicate Keyed(t: Truth) {
    forall g <- t.groups :: t.groups[g].id == g
  }

  lemma RemembersTransitively(a: Truth, b: Truth, c: Truth)
    requires Remembers(a, b) && Remembers(b, c)
    ensures Remembers(a, c)
  {
  }

  lemma {:induction false} UnitsRemembered(setup: Setup, t: Truth, us: seq<UnitSnapshot>, at: int)
    requires Keyed(t)
    ensures Keyed(TakeUnits(setup, t, us, at)) && Remembers(t, TakeUnits(setup, t, us, at))
  {
    if us != [] {
      var mid := TakeUnits(setup, t, us[..|us| - 1], at);
      UnitsRemembered(setup, t, us[..|us| - 1], at);
      RemembersTransitively(t, mid, TakeUnits(setup, t, us, at));
    }
  }

  lemma {:induction false} AirfieldsRemembered(setup: Setup, t: Truth, fields: seq<AirfieldSnapshot>, at: int)
    requires Keyed(t)
    ensures Keyed(TakeAirfields(setup, t, fields, at)) && Remembers(t, TakeAirfields(setup, t, fields, at))
  {
    if fields != [] {
      var mid := TakeAirfields(setup, t, fields[..|fields| - 1], at);
      AirfieldsRemembered(setup, t, fields[..|fields| - 1], at);
      RemembersTransitively(t, mid, TakeAirfields(setup, t, fields, at));
    }
  }

  lemma {:induction false} EventsRemembered(setup: Setup, t: Truth, es: seq<StreamEvent>, at: int)
    requires Keyed(t)
    ensures Keyed(TakeEvents(setup, t, es, at)) && Remembers(t, TakeEvents(setup, t, es, at))
  {
    if es != [] {
      var mid := TakeEvents(setup, t, es[..|es| - 1], at);
      EventsRemembered(setup, t, es[..|es| - 1], at);
      RemembersTransitively(t, mid, TakeEvents(setup, t, es, at));
    }
  }

  lemma UpdateRemembered(setup: Setup, t: Truth, u: Update)
    requires Keyed(t)
    ensures Keyed(Take(setup, t, u)) && Remembers(t, Take(setup, t, u))
  {
    hide TakeUnits, TakeAirfields, TakeEvents;
    var t1 := if u.mission.Some? then TakeMission(t, u.mission.value, u.at) else t;
    var t2 := if u.metadata.Some? then TakeMetadata(t1, u.metadata.value, u.at) else t1;
    assert Keyed(t2) && Remembers(t, t2);
    UnitsRemembered(setup, t2, u.units, u.at);
    var t3 := TakeUnits(setup, t2, u.units, u.at);
    AirfieldsRemembered(setup, t3, u.airfields, u.at);
    var t4 := TakeAirfields(setup, t3, u.airfields, u.at);
    EventsRemembered(setup, t4, u.events, u.at);
    hide Remembers;
    RemembersTransitively(t, t2, t3);
    RemembersTransitively(t, t3, t4);
    RemembersTransitively(t, t4, Take(setup, t, u));
  }

  /** Over any sequence of updates nothing is forgotten. */
  lemma {:induction false} NothingIsForgotten(setup: Setup, t: Truth, us: seq<Update>)
    requires Keyed(t)
    ensures Keyed(TakeAll(setup, t, us)) && Remembers(t, TakeAll(setup, t, us))
  {
    hide Take;
    if us != [] {
      var mid := TakeAll(setup, t, us[..|us| - 1]);
      NothingIsForgotten(setup, t, us[..|us| - 1]);
      UpdateRemembered(setup, mid, us[|us| - 1]);
      RemembersTransitively(t, mid, TakeAll(setup, t, us));
    }
  }

  // ------------------------------------------------- what a record lets a side see

  /** Which coalition's eyes a unit snapshot serves: only those of the unit's own side. */
  lemma UnitRecordsServeTheirSide(setup: Setup, t: Truth, u: UnitSnapshot, at: int, c: Coalition, g: WorldGroup)
    requires IsEnemy(g, c)
    ensures var e := TakeUnit(setup, t, u, at).evidence[|t.evidence|];
      VisibleTo(e, c, g) <==> CoalitionOrNone(u.coalition) == Some(c)
  {
    hide SectorFor, UnitGroup;
  }

  /** Once an enemy group has been detected it stays detected, whatever is ingested later, for
      as long as it is an enemy. */
  lemma DetectionSurvives(setup: Setup, t: Truth, us: seq<Update>, id: string, c: Coalition)
    requires Keyed(t) && id in t.groups && IsEnemy(t.groups[id], c)
    requires exists e <- t.evidence :: Concerns(e, c, t.groups[id])
    ensures var t' := TakeAll(setup, t, us);
      && id in t'.groups
      && (IsEnemy(t'.groups[id], c) ==> exists e <- t'.evidence :: Concerns(e, c, t'.groups[id]))
  {
    hide TakeAll;
    NothingIsForgotten(setup, t, us);
    var t' := TakeAll(setup, t, us);
    var e :| e in t.evidence && Concerns(e, c, t.groups[id]);
    assert e in t'.evidence && GroupKept(t.groups[id], t'.groups[id]);
  }
}
