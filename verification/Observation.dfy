/** The picture a coalition's commander is shown, and that it depends on nothing hidden. */
module Observation {
  import opened Domain
  import opened Requests
  import opened Fusion
  import Ordering

  datatype Band = LowBand | MediumBand | HighBand

  datatype ActivityLevel = Quiet | Watchful | Busy

  datatype Health = HealthUnknown | Healthy | Degraded | Critical

  datatype Note = ThreatWas(before: Band, after: Band) | KnownContacts(count: nat)

  datatype SectorEntry = SectorEntry(
    sectorId: string, name: string, control: ControlStatus, friendlyStrength: Band, enemyThreat: Band,
    contactConfidence: Option<Confidence>, activity: ActivityLevel, importance: Band, notes: seq<Note>)

  datatype Force = Force(
    id: string, forceType: string, sectorId: Option<string>, readiness: string, task: Posture, mobile: bool,
    health: Health, highValue: bool)

  datatype Contact = Contact(
    id: string, knowledge: Knowledge, classification: Option<string>, lastKnownSectorId: Option<string>,
    estimatedSectorId: Option<string>, secondsSince: nat, confidence: Confidence, sources: set<string>,
    threat: Band, stale: bool, inferred: bool)

  datatype KnownSector = KnownSector(id: string, name: string, role: string, status: Option<ControlStatus>)

  datatype AvailableReserve = AvailableReserve(id: string, groupType: string, allowedSectorIds: seq<string>)

  datatype Shortage = BudgetLow | NoReserves

  datatype Change =
    | NewContact(id: string, sectorId: Option<string>)
    | BecameStale(id: string)
    | ConfidenceChanged(id: string, fromConfidence: Confidence, toConfidence: Confidence)
    | PointChanged(id: string, fromStatus: ControlStatus, toStatus: ControlStatus)
    | ReserveArrived(id: string)
    | ThreatChanged(id: string, fromBand: Band, toBand: Band)

  datatype Ask = AskDeploy(reserveId: string, sectorId: string) | AskReposition(forceId: string) | AskPriority(sectorId: string) | AskHold

  datatype Picture = Picture(
    coalition: Coalition, snapshotTime: int, cycle: int, secondsSinceLastCycle: int,
    posture: Option<Posture>, objectives: seq<string>, constraints: seq<string>,
    theater: string, missionClock: Option<string>, weather: Json, knownPoints: seq<KnownControlPoint>,
    knownSectors: seq<KnownSector>, frontStatus: seq<(string, string)>,
    budget: int, availableReserves: seq<AvailableReserve>, restrictions: seq<string>, shortages: seq<Shortage>,
    sectors: seq<SectorEntry>, forces: seq<Force>, contacts: seq<Contact>, changes: seq<Change>,
    standingOrders: seq<string>, asks: seq<Ask>)

  /** The coalition's own rows: its state, active groups and reserves, in store order. */
  datatype OwnSide = OwnSide(state: CoalitionState, active: seq<ActiveGroup>, reserves: seq<ReserveGroup>)

  // --------------------------------------------------------------------- filters

  function Filter<T(!new)>(items: seq<T>, keep: T -> bool): (r: seq<T>)
    ensures forall x :: x in r <==> x in items && keep(x)
  {
    if items == [] then []
    else
      assert items == items[..|items| - 1] + [items[|items| - 1]];
      Filter(items[..|items| - 1], keep) + if keep(items[|items| - 1]) then [items[|items| - 1]] else []
  }

  function Map<T, U>(items: seq<T>, f: T -> U): (r: seq<U>)
    ensures |r| == |items| && forall i :: 0 <= i < |r| ==> r[i] == f(items[i])
  {
    seq(|items|, i requires 0 <= i < |items| => f(items[i]))
  }

  /** The items filed under one key. */
  function Under<T(!new)>(items: seq<T>, key: T -> Option<string>, k: string): seq<T> {
    Filter(items, (x: T) => key(x) == Some(k))
  }

  function Listed<T>(index: map<string, seq<T>>, k: string): seq<T> {
    if k in index then index[k] else []
  }

  /** Builds a dictionary of lists; looking a key up afterwards is filtering by that key. */
  method IndexBy<T(!new)>(items: seq<T>, key: T -> Option<string>) returns (index: map<string, seq<T>>)
    ensures forall k :: Listed(index, k) == Under(items, key, k)
  {
    index := map[];
    for i := 0 to |items|
      invariant forall k :: Listed(index, k) == Under(items[..i], key, k)
    {
      PrefixStep(items, i);
      var k := key(items[i]);
      ghost var before := index;
      if k.Some? {
        index := index[k.value := Listed(index, k.value) + [items[i]]];
      }
      forall j ensures Listed(index, j) == Under(items[..i + 1], key, j) {
        assert Listed(before, j) == Under(items[..i], key, j);
      }
    }
    assert items[..|items|] == items;
  }

  // ------------------------------------------------------------------ small views

  function OwnerStatus(owner: Option<Coalition>, c: Coalition): ControlStatus {
    if owner.None? then Unowned else if owner == Some(c) then Friendly else Hostile
  }

  function SectorControl(points: seq<WorldControlPoint>, c: Coalition): ControlStatus {
    var owners := set p <- points :: p.owner;
    if points == [] then Unowned
    else if owners == {Some(c)} then Friendly
    else if |owners| > 1 || None in owners then Contested
    else Hostile
  }

  function BandFromCount(count: nat, highValue: nat): Band {
    if count + highValue >= 3 then HighBand else if count + highValue >= 1 then MediumBand else LowBand
  }

  function MaxConfidence(ts: seq<Track>): Option<Confidence> {
    if exists t <- ts :: t.confidence == HighConfidence then Some(HighConfidence)
    else if exists t <- ts :: t.confidence == MediumConfidence then Some(MediumConfidence)
    else if ts != [] then Some(LowConfidence)
    else None
  }

  function ActivityLevelOf(log: seq<Evidence>, sectorId: string): ActivityLevel {
    var count := |Filter(log, (e: Evidence) => e.sectorId == Some(sectorId))|;
    if count >= 3 then Busy else if count >= 1 then Watchful else Quiet
  }

  const IMPORTANT_TAGS := {"airbase", "frontline", "contested", "air_corridor"}

  function Importance(sc: Scenario, id: string): Band {
    match FirstSector(sc.sectors, id)
    case None => LowBand
    case Some(sector) =>
      if exists tag <- sector.tags :: tag in IMPORTANT_TAGS then HighBand
      else if exists p <- sc.controlPoints :: p.sectorId == id && p.strategicValue == "high" then HighBand
      else if sector.role in {"front", "contested"} then MediumBand
      else LowBand
  }

  function ThreatEstimate(classification: Option<string>, confidence: Confidence): Band {
    var text := if classification.Some? then Lower(classification.value) else "";
    if Contains(text, "sam") || Contains(text, "air_defense") || Contains(text, "fires") || Contains(text, "radar") then HighBand
    else if confidence == HighConfidence then MediumBand
    else LowBand
  }

  // --------------------------------------------------------------- sector summary

  function FindEntry(entries: seq<SectorEntry>, id: string): Option<SectorEntry> {
    if entries == [] then None
    else if entries[|entries| - 1].sectorId == id then Some(entries[|entries| - 1])
    else FindEntry(entries[..|entries| - 1], id)
  }

  function GroupSector(g: WorldGroup): Option<string> {
    if Truthy(g.sectorId) then g.sectorId else None
  }

  function NotesFor(was: Option<SectorEntry>, threat: Band, contacts: nat): seq<Note> {
    (if was.Some? && was.value.enemyThreat != threat then [ThreatWas(was.value.enemyThreat, threat)] else [])
    + if contacts > 0 then [KnownContacts(contacts)] else []
  }

  function Own(gs: seq<WorldGroup>, c: Coalition): seq<WorldGroup> {
    if gs == [] then []
    else Own(gs[..|gs| - 1], c) + if gs[|gs| - 1].coalition == Some(c) then [gs[|gs| - 1]] else []
  }

  function Entry(
      sc: Scenario, log: seq<Evidence>, c: Coalition, previous: seq<SectorEntry>, sector: Sector,
      groups: seq<WorldGroup>, contacts: seq<Track>, points: seq<WorldControlPoint>): SectorEntry
  {
    var own := Own(groups, c);
    var threat := BandFromCount(|contacts|, |Filter(contacts, (t: Track) => t.confidence == HighConfidence)|);
    SectorEntry(
      sector.id, sector.name, SectorControl(points, c),
      BandFromCount(|own|, |Filter(own, (g: WorldGroup) => g.highValue)|), threat, MaxConfidence(contacts),
      ActivityLevelOf(log, sector.id), Importance(sc, sector.id),
      NotesFor(FindEntry(previous, sector.id), threat, |contacts|))
  }

  function EntryFor(
      sc: Scenario, world: WorldSnapshot, contacts: seq<Track>, c: Coalition, previous: seq<SectorEntry>, sector: Sector): SectorEntry
  {
    Entry(sc, world.evidence, c, previous, sector,
          Under(world.groups, GroupSector, sector.id), Under(contacts, TrackSector, sector.id),
          Under(world.controlPoints, (p: WorldControlPoint) => Some(p.sectorId), sector.id))
  }

  function SortedSectors(sc: Scenario): seq<Sector> {
    Ordering.SortBy(sc.sectors, (s: Sector) => s.id)
  }

  function SectorSummary(
      sc: Scenario, world: WorldSnapshot, contacts: seq<Track>, c: Coalition, previous: seq<SectorEntry>): seq<SectorEntry>
  {
    Map(SortedSectors(sc), (s: Sector) => EntryFor(sc, world, contacts, c, previous, s))
  }

  /** As the builder runs it: three dictionaries first, then one entry per sector. */
  method BuildSectorSummary(
      sc: Scenario, world: WorldSnapshot, contacts: seq<Track>, c: Coalition, previous: seq<SectorEntry>)
      returns (entries: seq<SectorEntry>)
    ensures entries == SectorSummary(sc, world, contacts, c, previous)
  {
    var groupsBySector := IndexBy(world.groups, GroupSector);
    var contactsBySector := IndexBy(contacts, TrackSector);
    var pointsBySector := IndexBy(world.controlPoints, (p: WorldControlPoint) => Some(p.sectorId));
    entries := [];
    var sectors := SortedSectors(sc);
    hide Entry;
    for i := 0 to |sectors|
      invariant |entries| == i
      invariant forall j :: 0 <= j < i ==> entries[j] == EntryFor(sc, world, contacts, c, previous, sectors[j])
    {
      var id := sectors[i].id;
      entries := entries + [Entry(sc, world.evidence, c, previous, sectors[i], Listed(groupsBySector, id),
                                  Listed(contactsBySector, id), Listed(pointsBySector, id))];
    }
  }

  // -------------------------------------------------------------- friendly forces

  function FindWorldGroup(gs: seq<WorldGroup>, id: string): Option<WorldGroup> {
    if gs == [] then None
    else if gs[|gs| - 1].id == id then Some(gs[|gs| - 1])
    else FindWorldGroup(gs[..|gs| - 1], id)
  }

  function HealthOf(group: ActiveGroup, record: Option<WorldGroup>): Health {
    if record.Some? && record.value.health.Some? then
      if record.value.health.value >= 0.8 then Healthy else if record.value.health.value >= 0.5 then Degraded else Critical
    else if group.status == "ready" then Healthy
    else HealthUnknown
  }

  function ForceFor(group: ActiveGroup, record: Option<WorldGroup>): Force {
    Force(group.id, group.groupType, if record.Some? then record.value.sectorId else group.sectorId, group.status,
          group.posture, group.mobile, HealthOf(group, record),
          if record.Some? then record.value.highValue
          else Contains(group.groupType, "air_defense") || Contains(group.groupType, "fires"))
  }

  function FriendlyForces(active: seq<ActiveGroup>, world: WorldSnapshot): seq<Force> {
    Map(Ordering.SortBy(active, (g: ActiveGroup) => g.id), (g: ActiveGroup) => ForceFor(g, FindWorldGroup(world.groups, g.id)))
  }

  method BuildFriendlyForces(active: seq<ActiveGroup>, world: WorldSnapshot) returns (forces: seq<Force>)
    ensures forces == FriendlyForces(active, world)
  {
    var lookup: map<string, WorldGroup> := map[];
    for i := 0 to |world.groups|
      invariant forall id :: Lookup(lookup, id) == FindWorldGroup(world.groups[..i], id)
    {
      PrefixStep(world.groups, i);
      lookup := lookup[world.groups[i].id := world.groups[i]];
    }
    assert world.groups[..|world.groups|] == world.groups;
    forces := [];
    var sorted := Ordering.SortBy(active, (g: ActiveGroup) => g.id);
    for i := 0 to |sorted|
      invariant |forces| == i
      invariant forall j :: 0 <= j < i ==> forces[j] == ForceFor(sorted[j], FindWorldGroup(world.groups, sorted[j].id))
    {
      forces := forces + [ForceFor(sorted[i], Lookup(lookup, sorted[i].id))];
    }
  }

  // --------------------------------------------------------------- enemy contacts

  function ContactFor(t: Track): Contact {
    Contact(t.id, t.knowledge, t.classification, t.lastKnownSectorId, t.estimatedSectorId, t.secondsSince, t.confidence,
            t.sources, ThreatEstimate(t.classification, t.confidence), t.stale, t.inferred)
  }

  function EnemyContacts(state: KnowledgeState): seq<Contact> {
    Map(ById(state.contacts), ContactFor)
  }

  // -------------------------------------------------------- scenario and resources

  function PointOwner(world: WorldSnapshot, p: ControlPoint): Option<Coalition> {
    match FindWorldPoint(world.controlPoints, p.id)
    case Some(record) => record.owner
    case None => p.owner
  }

  function FindWorldPoint(ps: seq<WorldControlPoint>, id: string): Option<WorldControlPoint> {
    if ps == [] then None
    else if ps[|ps| - 1].controlPointId == id then Some(ps[|ps| - 1])
    else FindWorldPoint(ps[..|ps| - 1], id)
  }

  function KnownPoints(sc: Scenario, world: WorldSnapshot, c: Coalition): seq<KnownControlPoint> {
    Map(Ordering.SortBy(sc.controlPoints, (p: ControlPoint) => p.id),
        (p: ControlPoint) => KnownControlPoint(p.id, p.name, p.kind, p.sectorId, OwnerStatus(PointOwner(world, p), c)))
  }

  function Weather(log: seq<Evidence>): Json {
    if log == [] then JNull
    else if log[|log| - 1].evidenceType == "olympus_mission_snapshot" then
      if log[|log| - 1].payload.JObject? then Get(log[|log| - 1].payload.fields, "weather_summary") else JNull
    else Weather(log[..|log| - 1])
  }

  function KnownSectors(sc: Scenario, entries: seq<SectorEntry>): seq<KnownSector> {
    Map(SortedSectors(sc), (s: Sector) =>
      var entry := FindEntry(entries, s.id);
      KnownSector(s.id, s.name, s.role, if entry.Some? then Some(entry.value.control) else None))
  }

  function FrontStatus(sc: Scenario): seq<(string, string)> {
    Map(Filter(SortedSectors(sc), (s: Sector) => s.role in {"front", "contested", "air_corridor"}), (s: Sector) => (s.name, s.role))
  }

  function Occurrences(ps: seq<Posture>, p: Posture): nat {
    |Filter(ps, (q: Posture) => q == p)|
  }

  /** The most common posture; of equally common ones the one met first. */
  function MostCommon(all: seq<Posture>, n: nat): Option<Posture>
    requires n <= |all|
  {
    if n == 0 then None
    else
      var best := MostCommon(all, n - 1);
      if best.None? || Occurrences(all, all[n - 1]) > Occurrences(all, best.value) then Some(all[n - 1]) else best
  }

  function DominantPosture(active: seq<ActiveGroup>): Option<Posture> {
    var postures := Map(active, (g: ActiveGroup) => g.posture);
    MostCommon(postures, |postures|)
  }

  /** It occurs at least as often as any other, and more often than any met before it. */
  lemma {:induction false} MostCommonMeaning(all: seq<Posture>, n: nat)
    requires 0 < n <= |all|
    ensures MostCommon(all, n).Some?
    ensures exists i ::
      && 0 <= i < n && all[i] == MostCommon(all, n).value
      && (forall j :: 0 <= j < i ==> Occurrences(all, all[j]) < Occurrences(all, all[i]))
      && (forall j :: i <= j < n ==> Occurrences(all, all[j]) <= Occurrences(all, all[i]))
  {
    hide Occurrences;
    if n > 1 {
      MostCommonMeaning(all, n - 1);
    }
  }

  function RestrictionTexts(sc: Scenario, c: Coalition): seq<string> {
    Map(Filter(sc.restrictions, (r: Restriction) => r.coalition in {None, Some(c)}), (r: Restriction) => r.description)
  }

  function AvailableReserves(reserves: seq<ReserveGroup>): seq<AvailableReserve> {
    Map(Filter(Ordering.SortBy(reserves, (r: ReserveGroup) => r.id), (r: ReserveGroup) => r.available && r.status == "available"),
        (r: ReserveGroup) => AvailableReserve(r.id, r.groupType, r.allowedSectorIds))
  }

  const LOW_BUDGET := 6

  function Shortages(budget: int, available: seq<AvailableReserve>): seq<Shortage> {
    (if budget <= LOW_BUDGET then [BudgetLow] else []) + if available == [] then [NoReserves] else []
  }

  // --------------------------------------------------------------- recent changes

  function FindContact(cs: seq<Contact>, id: string): Option<Contact> {
    if cs == [] then None
    else if cs[|cs| - 1].id == id then Some(cs[|cs| - 1])
    else FindContact(cs[..|cs| - 1], id)
  }

  function FindKnownPoint(ps: seq<KnownControlPoint>, id: string): Option<KnownControlPoint> {
    if ps == [] then None
    else if ps[|ps| - 1].id == id then Some(ps[|ps| - 1])
    else FindKnownPoint(ps[..|ps| - 1], id)
  }

  function ContactPlace(c: Contact): Option<string> {
    if Truthy(c.estimatedSectorId) then c.estimatedSectorId
    else if Truthy(c.lastKnownSectorId) then c.lastKnownSectorId
    else None
  }

  function ContactChange(was: Option<Contact>, now: Contact): seq<Change> {
    match was
    case None => [NewContact(now.id, ContactPlace(now))]
    case Some(earlier) =>
      (if !earlier.stale && now.stale then [BecameStale(now.id)] else [])
      + if earlier.confidence != now.confidence then [ConfidenceChanged(now.id, earlier.confidence, now.confidence)] else []
  }

  function PointChange(was: Option<KnownControlPoint>, now: KnownControlPoint): seq<Change> {
    if was.Some? && was.value.status != now.status then [PointChanged(now.id, was.value.status, now.status)] else []
  }

  function ThreatChange(was: Option<SectorEntry>, now: SectorEntry): seq<Change> {
    if was.Some? && was.value.enemyThreat != now.enemyThreat
    then [ThreatChanged(now.sectorId, was.value.enemyThreat, now.enemyThreat)] else []
  }

  function ContactChanges(earlier: seq<Contact>, now: seq<Contact>): seq<Change> {
    if now == [] then []
    else ContactChanges(earlier, now[..|now| - 1]) + ContactChange(FindContact(earlier, now[|now| - 1].id), now[|now| - 1])
  }

  function PointChanges(earlier: seq<KnownControlPoint>, now: seq<KnownControlPoint>): seq<Change> {
    if now == [] then []
    else PointChanges(earlier, now[..|now| - 1]) + PointChange(FindKnownPoint(earlier, now[|now| - 1].id), now[|now| - 1])
  }

  function ThreatChanges(earlier: seq<SectorEntry>, now: seq<SectorEntry>): seq<Change> {
    if now == [] then []
    else ThreatChanges(earlier, now[..|now| - 1]) + ThreatChange(FindEntry(earlier, now[|now| - 1].sectorId), now[|now| - 1])
  }

  function ReserveIdsOf(rs: seq<AvailableReserve>): seq<string> {
    Map(rs, (r: AvailableReserve) => r.id)
  }

  function ReserveChanges(earlier: seq<AvailableReserve>, now: seq<AvailableReserve>): seq<Change> {
    var before := ReserveIdsOf(earlier);
    var arrived := Filter(ReserveIdsOf(now), (id: string) => id !in before);
    Map(Ordering.SortBy(Unique(arrived), (id: string) => id), (id: string) => ReserveArrived(id))
  }

  const MAX_CHANGES := 6

  function FirstChanges(changes: seq<Change>): seq<Change> {
    if |changes| <= MAX_CHANGES then changes else changes[..MAX_CHANGES]
  }

  function RecentChanges(now: Picture, previous: Option<Picture>): seq<Change> {
    match previous
    case None => []
    case Some(earlier) =>
      FirstChanges(
        ContactChanges(earlier.contacts, now.contacts) + PointChanges(earlier.knownPoints, now.knownPoints)
        + ReserveChanges(earlier.availableReserves, now.availableReserves) + ThreatChanges(earlier.sectors, now.sectors))
  }

  method ListContactChanges(earlier: seq<Contact>, now: seq<Contact>) returns (changes: seq<Change>)
    ensures changes == ContactChanges(earlier, now)
  {
    changes := [];
    for i := 0 to |now|
      invariant changes == ContactChanges(earlier, now[..i])
    {
      PrefixStep(now, i);
      var was := FindContact(earlier, now[i].id);
      if was.None? {
        changes := changes + [NewContact(now[i].id, ContactPlace(now[i]))];
        continue;
      }
      ghost var before := changes;
      if !was.value.stale && now[i].stale {
        changes := changes + [BecameStale(now[i].id)];
      }
      if was.value.confidence != now[i].confidence {
        changes := changes + [ConfidenceChanged(now[i].id, was.value.confidence, now[i].confidence)];
      }
      assert changes == before + ContactChange(was, now[i]);
    }
    assert now[..|now|] == now;
  }

  method ListPointChanges(earlier: seq<KnownControlPoint>, now: seq<KnownControlPoint>) returns (changes: seq<Change>)
    ensures changes == PointChanges(earlier, now)
  {
    changes := [];
    for i := 0 to |now|
      invariant changes == PointChanges(earlier, now[..i])
    {
      PrefixStep(now, i);
      var was := FindKnownPoint(earlier, now[i].id);
      if was.Some? && was.value.status != now[i].status {
        changes := changes + [PointChanged(now[i].id, was.value.status, now[i].status)];
      }
    }
    assert now[..|now|] == now;
  }

  method ListThreatChanges(earlier: seq<SectorEntry>, now: seq<SectorEntry>) returns (changes: seq<Change>)
    ensures changes == ThreatChanges(earlier, now)
  {
    changes := [];
    for i := 0 to |now|
      invariant changes == ThreatChanges(earlier, now[..i])
    {
      PrefixStep(now, i);
      var was := FindEntry(earlier, now[i].sectorId);
      if was.Some? && was.value.enemyThreat != now[i].enemyThreat {
        changes := changes + [ThreatChanged(now[i].sectorId, was.value.enemyThreat, now[i].enemyThreat)];
      }
    }
    assert now[..|now|] == now;
  }

  method BuildRecentChanges(now: Picture, previous: Option<Picture>) returns (changes: seq<Change>)
    ensures changes == RecentChanges(now, previous)
  {
    if previous.None? {
      return [];
    }
    var contacts := ListContactChanges(previous.value.contacts, now.contacts);
    var points := ListPointChanges(previous.value.knownPoints, now.knownPoints);
    var threats := ListThreatChanges(previous.value.sectors, now.sectors);
    changes := FirstChanges(
      contacts + points + ReserveChanges(previous.value.availableReserves, now.availableReserves) + threats);
  }

  /** Nothing happened since the earlier picture that the change list speaks of. */
  ghost predicate NothingNew(earlier: Picture, now: Picture) {
    && (forall k <- now.contacts ::
          var was := FindContact(earlier.contacts, k.id);
          was.Some? && (k.stale ==> was.value.stale) && was.value.confidence == k.confidence)
    && (forall p <- now.knownPoints ::
          var was := FindKnownPoint(earlier.knownPoints, p.id);
          was.None? || was.value.status == p.status)
    && (forall r <- now.availableReserves :: exists q <- earlier.availableReserves :: q.id == r.id)
    && (forall s <- now.sectors ::
          var was := FindEntry(earlier.sectors, s.sectorId);
          was.None? || was.value.enemyThreat == s.enemyThreat)
  }

  lemma {:induction false} NoContactChange(earlier: seq<Contact>, now: seq<Contact>)
    ensures ContactChanges(earlier, now) == [] <==> forall k <- now :: ContactChange(FindContact(earlier, k.id), k) == []
  {
    hide ContactChange, FindContact;
    if now != [] {
      NoContactChange(earlier, now[..|now| - 1]);
      assert now == now[..|now| - 1] + [now[|now| - 1]];
    }
  }

  lemma {:induction false} NoPointChange(earlier: seq<KnownControlPoint>, now: seq<KnownControlPoint>)
    ensures PointChanges(earlier, now) == [] <==> forall p <- now :: PointChange(FindKnownPoint(earlier, p.id), p) == []
  {
    hide PointChange, FindKnownPoint;
    if now != [] {
      NoPointChange(earlier, now[..|now| - 1]);
      assert now == now[..|now| - 1] + [now[|now| - 1]];
    }
  }

  lemma {:induction false} NoThreatChange(earlier: seq<SectorEntry>, now: seq<SectorEntry>)
    ensures ThreatChanges(earlier, now) == [] <==> forall s <- now :: ThreatChange(FindEntry(earlier, s.sectorId), s) == []
  {
    hide ThreatChange, FindEntry;
    if now != [] {
      NoThreatChange(earlier, now[..|now| - 1]);
      assert now == now[..|now| - 1] + [now[|now| - 1]];
    }
  }

  lemma NoReserveChange(earlier: seq<AvailableReserve>, now: seq<AvailableReserve>)
    ensures ReserveChanges(earlier, now) == [] <==> forall r <- now :: exists q <- earlier :: q.id == r.id
  {
    var before := ReserveIdsOf(earlier);
    var arrived := Filter(ReserveIdsOf(now), (id: string) => id !in before);
    assert |ReserveChanges(earlier, now)| == |Unique(arrived)|;
    assert arrived == [] ==> Unique(arrived) == [];
    assert arrived != [] ==> arrived[0] in Unique(arrived);
    forall id ensures id in before <==> exists q <- earlier :: q.id == id {
      if id in before {
        var i :| 0 <= i < |before| && before[i] == id;
        assert earlier[i] in earlier;
      }
      if exists q <- earlier :: q.id == id {
        var i :| 0 <= i < |earlier| && earlier[i].id == id;
        assert before[i] == id;
      }
    }
    if arrived == [] {
      forall r | r in now ensures exists q <- earlier :: q.id == r.id {
        var i :| 0 <= i < |now| && now[i] == r;
        assert ReserveIdsOf(now)[i] in ReserveIdsOf(now);
      }
    } else {
      var i :| 0 <= i < |now| && now[i].id == arrived[0];
      assert now[i] in now;
    }
  }

  /** The change list is empty exactly when nothing happened that it speaks of. */
  lemma SilentIffNothingNew(now: Picture, earlier: Picture)
    ensures RecentChanges(now, Some(earlier)) == [] <==> NothingNew(earlier, now)
  {
    NoContactChange(earlier.contacts, now.contacts);
    NoPointChange(earlier.knownPoints, now.knownPoints);
    NoReserveChange(earlier.availableReserves, now.availableReserves);
    NoThreatChange(earlier.sectors, now.sectors);
    hide ContactChanges, PointChanges, ReserveChanges, ThreatChanges, FindContact, FindKnownPoint, FindEntry;
  }

  // ------------------------------------------------------------------- decisions

  function Threatened(p: Picture): seq<SectorEntry> {
    Filter(p.sectors, (s: SectorEntry) => s.enemyThreat in {HighBand, MediumBand})
  }

  function ThreatenedForces(p: Picture): seq<Force> {
    var ids := Map(Threatened(p), (s: SectorEntry) => s.sectorId);
    Filter(p.forces, (f: Force) => f.highValue && f.sectorId.Some? && f.sectorId.value in ids)
  }

  function Asks(p: Picture): (r: seq<Ask>)
    ensures 1 <= |r| <= 3
  {
    var sectors, forces := Threatened(p), ThreatenedForces(p);
    var asks :=
      (if p.availableReserves != [] && sectors != [] then [AskDeploy(p.availableReserves[0].id, sectors[0].sectorId)] else [])
      + (if forces != [] then [AskReposition(forces[0].id)] else [])
      + if sectors != [] then [AskPriority(sectors[0].sectorId)] else [];
    if asks == [] then [AskHold] else asks
  }

  /** Holding the plan is put forward exactly when no sector is threatened, and then it is the
      only thing put forward. */
  lemma HoldIsLastResort(p: Picture)
    ensures AskHold in Asks(p) <==> forall s <- p.sectors :: s.enemyThreat == LowBand
    ensures AskHold in Asks(p) ==> Asks(p) == [AskHold]
  {
    assert ThreatenedForces(p) != [] ==> ThreatenedForces(p)[0] in ThreatenedForces(p);
    if Threatened(p) == [] {
      assert forall s <- p.sectors :: s !in Threatened(p);
    } else {
      assert Threatened(p)[0] in p.sectors;
    }
  }

  method BuildRequests(p: Picture) returns (asks: seq<Ask>)
    ensures asks == Asks(p)
  {
    var sectors, forces := Threatened(p), ThreatenedForces(p);
    asks := [];
    if p.availableReserves != [] && sectors != [] {
      asks := asks + [AskDeploy(p.availableReserves[0].id, sectors[0].sectorId)];
    }
    if forces != [] {
      asks := asks + [AskReposition(forces[0].id)];
    }
    if sectors != [] {
      asks := asks + [AskPriority(sectors[0].sectorId)];
    }
    if asks == [] {
      asks := [AskHold];
    }
  }

  // ----------------------------------------------------------------- the picture

  function Observe(
      sc: Scenario, policy: Policy, world: WorldSnapshot, own: OwnSide, c: Coalition, cycle: int, elapsed: int,
      previous: Option<Picture>, now: int): Picture
  {
    var knowledge := KnowledgeFor(sc, policy, world, c, now);
    var entries := SectorSummary(sc, world, knowledge.contacts, c, if previous.Some? then previous.value.sectors else []);
    var reserves := AvailableReserves(own.reserves);
    var base := Picture(
      c, now, cycle, elapsed, DominantPosture(own.active), own.state.objectives, RestrictionTexts(sc, c),
      sc.theater, world.missionTime, Weather(world.evidence), KnownPoints(sc, world, c), KnownSectors(sc, entries),
      FrontStatus(sc), own.state.budgetRemaining, reserves, RestrictionTexts(sc, c),
      Shortages(own.state.budgetRemaining, reserves), entries, FriendlyForces(own.active, world),
      EnemyContacts(knowledge), [],
      Map(Filter(own.state.standingOrders, (o: AuthoredOrder) => o.active), (o: AuthoredOrder) => o.text), []);
    base.(changes := RecentChanges(base, previous), asks := Asks(base))
  }
}
