/** Sensor fusion: what a coalition knows about the other side, built from the evidence log. */
module Fusion {
  import opened Domain
  import opened Requests
  import Ordering

  datatype Evidence = Evidence(
    source: string, evidenceType: string, entityId: Option<string>, coalition: Option<Coalition>,
    sectorId: Option<string>, occurredAt: int, payload: Json)

  datatype Policy = Policy(freshness: int, decay: int, archive: int, drift: bool)

  datatype Confidence = LowConfidence | MediumConfidence | HighConfidence

  datatype Knowledge = UnknownPresence | SuspectedType | ClassifiedType | ConfirmedType

  datatype Track = Track(
    id: string, coalition: Coalition, knowledge: Knowledge, confidence: Confidence, classification: Option<string>,
    inferred: bool, stale: bool, archived: bool, firstSeenAt: int, lastConfirmedAt: int,
    lastKnownSectorId: Option<string>, estimatedSectorId: Option<string>,
    evidenceCount: nat, sources: set<string>, lastSource: string, secondsSince: nat)

  datatype KnowledgeState = KnowledgeState(
    coalition: Coalition, generatedAt: int, missionTime: Option<string>, contacts: seq<Track>,
    archived: seq<Track>, friendlyIds: seq<string>, activity: map<string, Confidence>)

  datatype WorldSnapshot = WorldSnapshot(
    missionTime: Option<string>, lastIngestAt: Option<int>, groups: seq<WorldGroup>,
    controlPoints: seq<WorldControlPoint>, evidence: seq<Evidence>)

  function ConfidenceRank(c: Confidence): nat {
    match c
    case LowConfidence => 0
    case MediumConfidence => 1
    case HighConfidence => 2
  }

  function KnowledgeRank(k: Knowledge): nat {
    match k
    case UnknownPresence => 0
    case SuspectedType => 1
    case ClassifiedType => 2
    case ConfirmedType => 3
  }

  // ------------------------------------------------------------------- evidence

  const STREAM_PREFIX := "grpc_stream_"

  predicate VisibleTo(e: Evidence, c: Coalition, g: WorldGroup) {
    || (e.source == "olympus" && e.evidenceType == "olympus_airfield_snapshot")
    || (e.payload.JObject? && Get(e.payload.fields, "observed_by") == JString(CoalitionName(c)))
    || (e.source == "olympus" && g.coalition == Some(c))
    || (STREAM_PREFIX <= e.evidenceType && e.coalition == Some(c))
  }

  predicate Concerns(e: Evidence, c: Coalition, g: WorldGroup) {
    e.entityId == Some(g.id) && VisibleTo(e, c, g)
  }

  function Relevant(log: seq<Evidence>, c: Coalition, g: WorldGroup): (r: seq<Evidence>)
    ensures forall e :: e in r <==> e in log && Concerns(e, c, g)
    ensures |r| <= |log|
  {
    if log == [] then []
    else
      var front, last := log[..|log| - 1], log[|log| - 1];
      assert log == front + [last];
      Relevant(front, c, g) + if Concerns(last, c, g) then [last] else []
  }

  /** The latest record, the first of them on ties. */
  function Latest(es: seq<Evidence>): (r: Evidence)
    requires es != []
    ensures r in es && forall e <- es :: e.occurredAt <= r.occurredAt
  {
    var front, last := es[..|es| - 1], es[|es| - 1];
    assert es == front + [last];
    if front == [] then last
    else if last.occurredAt > Latest(front).occurredAt then last
    else Latest(front)
  }

  function Earliest(es: seq<Evidence>): (r: int)
    requires es != []
    ensures (exists e <- es :: e.occurredAt == r) && forall e <- es :: r <= e.occurredAt
  {
    var front, last := es[..|es| - 1], es[|es| - 1];
    assert es == front + [last];
    if front == [] then last.occurredAt
    else if last.occurredAt < Earliest(front) then last.occurredAt
    else Earliest(front)
  }

  // --------------------------------------------------------------------- tracks

  const SECOND := 1_000_000

  /** Whole seconds between two instants given in microseconds, never negative. */
  function SecondsSince(at: int, now: int): nat {
    if now < at then 0 else (now - at) / SECOND
  }

  function ConfidenceForAge(age: nat, policy: Policy, count: nat): Confidence {
    if age < policy.freshness then (if count > 1 then HighConfidence else MediumConfidence)
    else if age < policy.decay then MediumConfidence
    else LowConfidence
  }

  predicate Identifies(e: Evidence) {
    e.evidenceType in {"olympus_unit_snapshot", "grpc_stream_units"}
  }

  function KnowledgeOf(es: seq<Evidence>, g: WorldGroup): Knowledge {
    if g.groupType != "" && exists e <- es :: Identifies(e) then ConfirmedType
    else if Truthy(g.category) && |es| > 1 then ClassifiedType
    else if Truthy(g.category) then SuspectedType
    else UnknownPresence
  }

  function FirstSector(sectors: seq<Sector>, id: string): Option<Sector> {
    if sectors == [] then None else if sectors[0].id == id then Some(sectors[0]) else FirstSector(sectors[1..], id)
  }

  function NeighborsOf(sectors: seq<Sector>, id: string): seq<string> {
    var sector := FirstSector(sectors, id);
    if sector.Some? then sector.value.neighborIds else []
  }

  function EstimateSector(sc: Scenario, policy: Policy, g: WorldGroup): Option<string> {
    if !policy.drift || g.sectorId.None? || NeighborsOf(sc.sectors, g.sectorId.value) == [] then g.sectorId
    else Some(Ordering.SortBy(NeighborsOf(sc.sectors, g.sectorId.value), (id: string) => id)[0])
  }

  function TrackFrom(sc: Scenario, policy: Policy, es: seq<Evidence>, g: WorldGroup, c: Coalition, now: int): Track
    requires es != []
  {
    var last := Latest(es);
    var age := SecondsSince(last.occurredAt, now);
    var stale := age >= policy.decay;
    var knowledge := KnowledgeOf(es, g);
    Track(
      g.id, c, knowledge, ConfidenceForAge(age, policy, |es|),
      if knowledge != UnknownPresence then Some(g.groupType) else g.category,
      stale || (|es| > 1 && knowledge != ConfirmedType), stale, age >= policy.archive,
      Earliest(es), last.occurredAt, g.sectorId, if stale then EstimateSector(sc, policy, g) else None,
      |es|, set e <- es :: e.source, last.source, age)
  }

  function BuildTrack(sc: Scenario, policy: Policy, log: seq<Evidence>, g: WorldGroup, c: Coalition, now: int): Option<Track> {
    var es := Relevant(log, c, g);
    if es == [] then None else Some(TrackFrom(sc, policy, es, g, c, now))
  }

  predicate IsEnemy(g: WorldGroup, c: Coalition) {
    g.coalition.Some? && g.coalition != Some(c)
  }

  /** The tracks of the detected enemy groups, in the order of the groups. */
  function Tracks(sc: Scenario, policy: Policy, world: WorldSnapshot, gs: seq<WorldGroup>, c: Coalition, now: int): seq<Track> {
    if gs == [] then []
    else
      var g := gs[|gs| - 1];
      var track := if IsEnemy(g, c) then BuildTrack(sc, policy, world.evidence, g, c, now) else None;
      Tracks(sc, policy, world, gs[..|gs| - 1], c, now) + if track.Some? then [track.value] else []
  }

  function Archived(ts: seq<Track>, flag: bool): (r: seq<Track>)
    ensures forall t :: t in r <==> t in ts && t.archived == flag
  {
    if ts == [] then []
    else
      assert ts == ts[..|ts| - 1] + [ts[|ts| - 1]];
      Archived(ts[..|ts| - 1], flag) + if ts[|ts| - 1].archived == flag then [ts[|ts| - 1]] else []
  }

  lemma NoneArchived()
    ensures forall flag :: Archived([], flag) == []
  {
  }

  lemma ArchivedStep(ts: seq<Track>, t: Track, flag: bool)
    ensures Archived(ts + [t], flag) == Archived(ts, flag) + if t.archived == flag then [t] else []
  {
    assert (ts + [t])[..|ts|] == ts;
  }

  // ------------------------------------------------------------ sector activity

  function TrackSector(t: Track): Option<string> {
    if Truthy(t.estimatedSectorId) then t.estimatedSectorId
    else if Truthy(t.lastKnownSectorId) then t.lastKnownSectorId
    else None
  }

  function NoteActivity(activity: map<string, Confidence>, t: Track): map<string, Confidence> {
    match TrackSector(t)
    case None => activity
    case Some(s) =>
      if t.confidence == HighConfidence then activity[s := HighConfidence]
      else if t.confidence == MediumConfidence && !(s in activity && activity[s] == HighConfidence) then activity[s := MediumConfidence]
      else if s !in activity then activity[s := LowConfidence]
      else activity
  }

  function Activity(ts: seq<Track>): map<string, Confidence> {
    if ts == [] then map[] else NoteActivity(Activity(ts[..|ts| - 1]), ts[|ts| - 1])
  }

  /** The level of a sector is the highest confidence among the tracks that point to it. */
  ghost predicate LevelOf(ts: seq<Track>, s: string, level: Option<Confidence>) {
    && (level.None? ==> forall t <- ts :: TrackSector(t) != Some(s))
    && (level.Some? ==>
          && (exists t <- ts :: TrackSector(t) == Some(s) && t.confidence == level.value)
          && (forall t <- ts :: TrackSector(t) == Some(s) ==> ConfidenceRank(t.confidence) <= ConfidenceRank(level.value)))
  }

  function Lookup<T>(table: map<string, T>, key: string): Option<T> {
    if key in table then Some(table[key]) else None
  }

  lemma NoteRaisesLevel(ts: seq<Track>, t: Track, s: string, activity: map<string, Confidence>)
    requires LevelOf(ts, s, Lookup(activity, s))
    ensures LevelOf(ts + [t], s, Lookup(NoteActivity(activity, t), s))
  {
    hide TrackSector;
    var us := ts + [t];
    assert us[|ts|] == t;
    assert forall u <- ts :: u in us;
  }

  /** A sector is active when some track points to it, at the highest of their confidences. */
  lemma {:induction false} ActivityIsMaximum(ts: seq<Track>, s: string)
    ensures LevelOf(ts, s, Lookup(Activity(ts), s))
  {
    hide LevelOf, NoteActivity;
    if ts == [] {
      NoTracksNoLevel(s);
    } else {
      var front, last := ts[..|ts| - 1], ts[|ts| - 1];
      assert ts == front + [last];
      ActivityIsMaximum(front, s);
      NoteRaisesLevel(front, last, s, Activity(front));
    }
  }

  lemma NoTracksNoLevel(s: string)
    ensures LevelOf([], s, Lookup(Activity([]), s))
  {
  }

  /** The order in which tracks are visited does not matter. */
  lemma ActivityIgnoresOrder(ts: seq<Track>, us: seq<Track>)
    requires multiset(ts) == multiset(us)
    ensures Activity(ts) == Activity(us)
  {
    forall t ensures t in ts <==> t in us {
      assert t in ts <==> t in multiset(ts);
      assert t in us <==> t in multiset(us);
    }
    forall s ensures Lookup(Activity(ts), s) == Lookup(Activity(us), s) {
      ActivityIsMaximum(ts, s);
      ActivityIsMaximum(us, s);
    }
    SameLookups(Activity(ts), Activity(us));
  }

  lemma SameLookups(a: map<string, Confidence>, b: map<string, Confidence>)
    requires forall s :: Lookup(a, s) == Lookup(b, s)
    ensures a == b
  {
    forall s ensures s in a <==> s in b {
      assert Lookup(a, s) == Lookup(b, s);
    }
    forall s | s in a ensures a[s] == b[s] {
      assert Lookup(a, s) == Lookup(b, s);
    }
  }

  method SectorActivity(ts: seq<Track>) returns (activity: map<string, Confidence>)
    ensures activity == Activity(ts)
  {
    activity := map[];
    for i := 0 to |ts|
      invariant activity == Activity(ts[..i])
    {
      PrefixStep(ts, i);
      var sector := TrackSector(ts[i]);
      if sector.None? {
        continue;
      }
      if ts[i].confidence == HighConfidence {
        activity := activity[sector.value := HighConfidence];
      } else if ts[i].confidence == MediumConfidence && !(sector.value in activity && activity[sector.value] == HighConfidence) {
        activity := activity[sector.value := MediumConfidence];
      } else if sector.value !in activity {
        activity := activity[sector.value := LowConfidence];
      }
    }
    assert ts[..|ts|] == ts;
  }

  // ------------------------------------------------------------ knowledge state

  function FriendlyIds(gs: seq<WorldGroup>, c: Coalition): seq<string> {
    if gs == [] then []
    else FriendlyIds(gs[..|gs| - 1], c) + if gs[|gs| - 1].coalition == Some(c) then [gs[|gs| - 1].id] else []
  }

  function ById(ts: seq<Track>): seq<Track> {
    Ordering.SortBy(ts, (t: Track) => t.id)
  }

  function KnowledgeFor(sc: Scenario, policy: Policy, world: WorldSnapshot, c: Coalition, now: int): KnowledgeState {
    var tracks := Tracks(sc, policy, world, world.groups, c, now);
    KnowledgeState(
      c, now, world.missionTime, ById(Archived(tracks, false)), ById(Archived(tracks, true)),
      Ordering.SortBy(FriendlyIds(world.groups, c), (id: string) => id), Activity(Archived(tracks, false)))
  }

  method BuildKnowledgeState(sc: Scenario, policy: Policy, world: WorldSnapshot, c: Coalition, now: int)
      returns (state: KnowledgeState)
    ensures state == KnowledgeFor(sc, policy, world, c, now)
  {
    hide BuildTrack, Archived, NoteActivity, ById;
    var contacts: seq<Track>, archived: seq<Track> := [], [];
    assert Archived([], false) == [] && Archived([], true) == [] by { NoneArchived(); }
    ghost var tracks: seq<Track> := [];
    for i := 0 to |world.groups|
      invariant tracks == Tracks(sc, policy, world, world.groups[..i], c, now)
      invariant contacts == Archived(tracks, false) && archived == Archived(tracks, true)
    {
      PrefixStep(world.groups, i);
      if IsEnemy(world.groups[i], c) {
        var track := BuildTrack(sc, policy, world.evidence, world.groups[i], c, now);
        if track.Some? {
          ArchivedStep(tracks, track.value, true);
          ArchivedStep(tracks, track.value, false);
          tracks := tracks + [track.value];
          if track.value.archived {
            archived := archived + [track.value];
          } else {
            contacts := contacts + [track.value];
          }
        }
      }
    }
    assert world.groups[..|world.groups|] == world.groups;
    var activity := SectorActivity(contacts);
    state := KnowledgeState(c, now, world.missionTime, ById(contacts), ById(archived),
                            Ordering.SortBy(FriendlyIds(world.groups, c), (id: string) => id), activity);
  }

  // ---------------------------------------------------- active and archived tracks

  predicate Detected(world: WorldSnapshot, g: WorldGroup, c: Coalition) {
    IsEnemy(g, c) && exists e <- world.evidence :: Concerns(e, c, g)
  }

  function DetectedIds(world: WorldSnapshot, gs: seq<WorldGroup>, c: Coalition): seq<string> {
    if gs == [] then []
    else DetectedIds(world, gs[..|gs| - 1], c) + if Detected(world, gs[|gs| - 1], c) then [gs[|gs| - 1].id] else []
  }

  function Ids(ts: seq<Track>): (r: seq<string>)
    ensures |r| == |ts| && forall i :: 0 <= i < |r| ==> r[i] == ts[i].id
  {
    if ts == [] then [] else Ids(ts[..|ts| - 1]) + [ts[|ts| - 1].id]
  }

  lemma {:induction false} TracksAreDetected(sc: Scenario, policy: Policy, world: WorldSnapshot, gs: seq<WorldGroup>, c: Coalition, now: int)
    ensures Ids(Tracks(sc, policy, world, gs, c, now)) == DetectedIds(world, gs, c)
  {
    if gs != [] {
      var front, g := gs[..|gs| - 1], gs[|gs| - 1];
      TracksAreDetected(sc, policy, world, front, c, now);
      var es := Relevant(world.evidence, c, g);
      assert es != [] <==> exists e <- world.evidence :: Concerns(e, c, g) by {
        if es != [] {
          assert es[0] in es;
        }
      }
      hide Relevant, Ids, Concerns;
      if Detected(world, g, c) {
        var track := TrackFrom(sc, policy, es, g, c, now);
        assert track.id == g.id;
        hide TrackFrom;
      }
    }
  }

  lemma {:induction false} DetectedIdsAre(world: WorldSnapshot, gs: seq<WorldGroup>, c: Coalition, id: string)
    ensures id in DetectedIds(world, gs, c) <==> exists g <- gs :: g.id == id && Detected(world, g, c)
  {
    hide Detected;
    if gs != [] {
      var front, g := gs[..|gs| - 1], gs[|gs| - 1];
      assert gs == front + [g];
      DetectedIdsAre(world, front, c, id);
    }
  }

  lemma {:induction false} DetectedIdsDistinct(world: WorldSnapshot, gs: seq<WorldGroup>, c: Coalition)
    requires forall i, j :: 0 <= i < j < |gs| ==> gs[i].id != gs[j].id
    ensures Distinct(DetectedIds(world, gs, c))
  {
    hide Detected;
    if gs != [] {
      var front, g := gs[..|gs| - 1], gs[|gs| - 1];
      DetectedIdsDistinct(world, front, c);
      DetectedIdsAre(world, front, c, g.id);
    }
  }

  lemma {:induction false} ArchiveCounts(ts: seq<Track>)
    ensures |Archived(ts, false)| + |Archived(ts, true)| == |ts|
  {
    if ts != [] {
      ArchiveCounts(ts[..|ts| - 1]);
    }
  }

  ghost predicate HasTrack(ts: seq<Track>, id: string) {
    exists t <- ts :: t.id == id
  }

  ghost predicate DetectedId(world: WorldSnapshot, c: Coalition, id: string) {
    exists g <- world.groups :: g.id == id && Detected(world, g, c)
  }

  lemma IdsListed(ts: seq<Track>, id: string)
    ensures id in Ids(ts) <==> HasTrack(ts, id)
  {
    var ids := Ids(ts);
    if id in ids {
      var i :| 0 <= i < |ids| && ids[i] == id;
      assert ts[i] in ts;
    }
    if HasTrack(ts, id) {
      var t :| t in ts && t.id == id;
      var i :| 0 <= i < |ts| && ts[i] == t;
      assert ids[i] == id;
    }
  }

  /** Splitting tracks with distinct ids by a flag leaves no id on both sides and drops none. */
  lemma SplitKeepsIds(ts: seq<Track>, off: seq<Track>, on: seq<Track>)
    requires Distinct(Ids(ts))
    requires forall t :: t in off <==> t in ts && !t.archived
    requires forall t :: t in on <==> t in ts && t.archived
    ensures forall id :: HasTrack(ts, id) <==> HasTrack(off, id) || HasTrack(on, id)
    ensures forall id :: !(HasTrack(off, id) && HasTrack(on, id))
  {
    var ids := Ids(ts);
    forall id ensures HasTrack(ts, id) <==> HasTrack(off, id) || HasTrack(on, id) {
      if t :| t in ts && t.id == id {
        assert t in off || t in on;
      }
    }
    forall t, u | t in off && u in on ensures t.id != u.id {
      var i :| 0 <= i < |ts| && ts[i] == t;
      var j :| 0 <= j < |ts| && ts[j] == u;
      assert ids[i] == t.id && ids[j] == u.id && i != j;
    }
  }

  lemma StateSplitsTracks(sc: Scenario, policy: Policy, world: WorldSnapshot, c: Coalition, now: int)
    ensures var state := KnowledgeFor(sc, policy, world, c, now);
      var tracks := Tracks(sc, policy, world, world.groups, c, now);
      && |state.contacts| + |state.archived| == |tracks|
      && (forall t :: t in state.contacts <==> t in tracks && !t.archived)
      && (forall t :: t in state.archived <==> t in tracks && t.archived)
  {
    hide Tracks, Activity, FriendlyIds;
    var tracks := Tracks(sc, policy, world, world.groups, c, now);
    ArchiveCounts(tracks);
    hide Archived;
    Ordering.SameElements(Archived(tracks, false), (t: Track) => t.id);
    Ordering.SameElements(Archived(tracks, true), (t: Track) => t.id);
  }

  /** Active and archived tracks together are exactly the enemy groups some visible evidence
      speaks of, each of them once: the two lists have as many tracks as there are detected
      groups, cover all of their ids, and share none. */
  lemma TracksPartitionDetected(sc: Scenario, policy: Policy, world: WorldSnapshot, c: Coalition, now: int)
    requires forall i, j :: 0 <= i < j < |world.groups| ==> world.groups[i].id != world.groups[j].id
    ensures var state := KnowledgeFor(sc, policy, world, c, now);
      && |state.contacts| + |state.archived| == |DetectedIds(world, world.groups, c)|
      && (forall t <- state.contacts :: !t.archived) && (forall t <- state.archived :: t.archived)
      && (forall id :: DetectedId(world, c, id) <==> HasTrack(state.contacts, id) || HasTrack(state.archived, id))
      && (forall id :: !(HasTrack(state.contacts, id) && HasTrack(state.archived, id)))
  {
    hide Tracks, Detected, DetectedIds, KnowledgeFor, HasTrack, DetectedId;
    var tracks := Tracks(sc, policy, world, world.groups, c, now);
    var state := KnowledgeFor(sc, policy, world, c, now);
    TracksAreDetected(sc, policy, world, world.groups, c, now);
    DetectedIdsDistinct(world, world.groups, c);
    StateSplitsTracks(sc, policy, world, c, now);
    SplitKeepsIds(tracks, state.contacts, state.archived);
    forall id ensures DetectedId(world, c, id) <==> HasTrack(tracks, id) {
      IdListed(world, c, id);
      IdsListed(tracks, id);
    }
  }

  lemma IdListed(world: WorldSnapshot, c: Coalition, id: string)
    ensures DetectedId(world, c, id) <==> id in DetectedIds(world, world.groups, c)
  {
    DetectedIdsAre(world, world.groups, c, id);
  }

  // ------------------------------------------------------------- time and learning

  /** Ageing: with groups and evidence fixed, time never raises confidence, never makes a stale
      track fresh or an archived one active, and touches nothing else that was observed. */
  lemma TracksOnlyAge(
      sc: Scenario, policy: Policy, log: seq<Evidence>, g: WorldGroup, c: Coalition, now: int, later: int)
    requires now <= later
    ensures BuildTrack(sc, policy, log, g, c, now).Some? <==> BuildTrack(sc, policy, log, g, c, later).Some?
    ensures BuildTrack(sc, policy, log, g, c, now).Some? ==>
      var t, u := BuildTrack(sc, policy, log, g, c, now).value, BuildTrack(sc, policy, log, g, c, later).value;
      && ConfidenceRank(u.confidence) <= ConfidenceRank(t.confidence)
      && (t.stale ==> u.stale) && (t.archived ==> u.archived) && (t.inferred ==> u.inferred)
      && t.secondsSince <= u.secondsSince
      && u.(confidence := t.confidence, stale := t.stale, archived := t.archived, inferred := t.inferred,
            estimatedSectorId := t.estimatedSectorId, secondsSince := t.secondsSince) == t
  {
  }

  lemma {:induction false} RelevantOfMore(log: seq<Evidence>, more: seq<Evidence>, c: Coalition, g: WorldGroup)
    ensures Relevant(log + more, c, g) == Relevant(log, c, g) + Relevant(more, c, g)
    decreases |more|
  {
    hide Concerns;
    if more == [] {
      assert log + more == log;
    } else {
      var front, last := more[..|more| - 1], more[|more| - 1];
      RelevantOfMore(log, front, c, g);
      assert (log + more)[..|log + more| - 1] == log + front && (log + more)[|log + more| - 1] == last;
      assert Relevant(log + more, c, g) == Relevant(log + front, c, g) + if Concerns(last, c, g) then [last] else [];
    }
  }

  /** u is at least as well informed as t. */
  predicate Learned(t: Track, u: Track) {
    && ConfidenceRank(t.confidence) <= ConfidenceRank(u.confidence)
    && KnowledgeRank(t.knowledge) <= KnowledgeRank(u.knowledge)
    && (u.stale ==> t.stale) && (u.archived ==> t.archived)
    && u.secondsSince <= t.secondsSince && u.firstSeenAt <= t.firstSeenAt && t.lastConfirmedAt <= u.lastConfirmedAt
    && t.sources <= u.sources && t.evidenceCount <= u.evidenceCount
  }

  /** Learning: with groups fixed, whatever is appended to the evidence log never lowers
      confidence or knowledge level, and never makes a track older. */
  lemma EvidenceOnlyTeaches(
      sc: Scenario, policy: Policy, log: seq<Evidence>, more: seq<Evidence>, g: WorldGroup, c: Coalition, now: int)
    requires BuildTrack(sc, policy, log, g, c, now).Some?
    ensures BuildTrack(sc, policy, log + more, g, c, now).Some?
    ensures Learned(BuildTrack(sc, policy, log, g, c, now).value, BuildTrack(sc, policy, log + more, g, c, now).value)
  {
    RelevantOfMore(log, more, c, g);
    var es, es' := Relevant(log, c, g), Relevant(log, c, g) + Relevant(more, c, g);
    assert forall e <- es :: e in es';
    assert es != [] && es' != [] && Relevant(log + more, c, g) == es';
    hide Relevant, Concerns;
    MoreEvidence(sc, policy, es, es', g, c, now);
  }

  lemma MoreEvidence(sc: Scenario, policy: Policy, es: seq<Evidence>, es': seq<Evidence>, g: WorldGroup, c: Coalition, now: int)
    requires (forall e <- es :: e in es') && es != [] && |es| <= |es'|
    ensures Learned(TrackFrom(sc, policy, es, g, c, now), TrackFrom(sc, policy, es', g, c, now))
  {
    var t, u := TrackFrom(sc, policy, es, g, c, now), TrackFrom(sc, policy, es', g, c, now);
    assert Latest(es) in es' && Latest(es).occurredAt <= Latest(es').occurredAt;
    assert u.firstSeenAt <= t.firstSeenAt by {
      assert exists e <- es :: e.occurredAt == Earliest(es);
    }
    hide Latest, Earliest, EstimateSector, SecondsSince, KnowledgeOf;
  }

}
