/** Fog of war: what is hidden from a coalition changes nothing it is shown, and nothing the
    validator tells it. */
module Secrecy {
  import opened Domain
  import opened Requests
  import opened Validation
  import opened Batches
  import opened StateStore
  import opened Fusion
  import opened Observation
  import opened Blindness
  import Ordering

  /** Not of the coalition, not spoken of by any evidence it may see, and not carrying the id
      of one of its own active groups. */
  predicate Hidden(g: WorldGroup, log: seq<Evidence>, c: Coalition, ownIds: set<string>) {
    g.coalition != Some(c) && Relevant(log, c, g) == [] && g.id !in ownIds
  }

  function Shown(gs: seq<WorldGroup>, log: seq<Evidence>, c: Coalition, ownIds: set<string>): seq<WorldGroup> {
    if gs == [] then []
    else
      var front := Shown(gs[..|gs| - 1], log, c, ownIds);
      if Hidden(gs[|gs| - 1], log, c, ownIds) then front else front + [gs[|gs| - 1]]
  }

  /** The two worlds differ in hidden groups only: any number of them may have been added,
      removed or changed on either side. */
  predicate SameButHidden(a: WorldSnapshot, b: WorldSnapshot, c: Coalition, ownIds: set<string>) {
    && a.evidence == b.evidence && a.controlPoints == b.controlPoints && a.missionTime == b.missionTime
    && Shown(a.groups, a.evidence, c, ownIds) == Shown(b.groups, b.evidence, c, ownIds)
  }

  // ----------------------------------------- every use of the groups skips hidden ones

  lemma {:induction false} TracksOfShown(
      sc: Scenario, policy: Policy, world: WorldSnapshot, gs: seq<WorldGroup>, c: Coalition, ownIds: set<string>, now: int)
    ensures Tracks(sc, policy, world, Shown(gs, world.evidence, c, ownIds), c, now) == Tracks(sc, policy, world, gs, c, now)
  {
    if gs != [] {
      var front, g := gs[..|gs| - 1], gs[|gs| - 1];
      TracksOfShown(sc, policy, world, front, c, ownIds, now);
      var shown := Shown(front, world.evidence, c, ownIds);
      hide TrackFrom, Relevant;
      if !Hidden(g, world.evidence, c, ownIds) {
        assert (shown + [g])[..|shown|] == shown;
      } else {
        assert Tracks(sc, policy, world, gs, c, now) == Tracks(sc, policy, world, front, c, now) + [];
      }
    }
  }

  lemma {:induction false} TracksNeedEvidenceOnly(
      sc: Scenario, policy: Policy, a: WorldSnapshot, b: WorldSnapshot, gs: seq<WorldGroup>, c: Coalition, now: int)
    requires a.evidence == b.evidence
    ensures Tracks(sc, policy, a, gs, c, now) == Tracks(sc, policy, b, gs, c, now)
  {
    hide BuildTrack;
    if gs != [] {
      TracksNeedEvidenceOnly(sc, policy, a, b, gs[..|gs| - 1], c, now);
    }
  }

  lemma {:induction false} FriendliesOfShown(gs: seq<WorldGroup>, log: seq<Evidence>, c: Coalition, ownIds: set<string>)
    ensures FriendlyIds(Shown(gs, log, c, ownIds), c) == FriendlyIds(gs, c)
  {
    hide Relevant;
    if gs != [] {
      var front, g := gs[..|gs| - 1], gs[|gs| - 1];
      FriendliesOfShown(front, log, c, ownIds);
      var shown := Shown(front, log, c, ownIds);
      if !Hidden(g, log, c, ownIds) {
        assert (shown + [g])[..|shown|] == shown;
      } else {
        assert FriendlyIds(gs, c) == FriendlyIds(front, c) + [];
      }
    }
  }

  lemma {:induction false} LookupOfShown(gs: seq<WorldGroup>, log: seq<Evidence>, c: Coalition, ownIds: set<string>, id: string)
    requires id in ownIds
    ensures FindWorldGroup(Shown(gs, log, c, ownIds), id) == FindWorldGroup(gs, id)
  {
    hide Relevant;
    if gs != [] {
      var front, g := gs[..|gs| - 1], gs[|gs| - 1];
      LookupOfShown(front, log, c, ownIds, id);
      var shown := Shown(front, log, c, ownIds);
      if !Hidden(g, log, c, ownIds) {
        assert (shown + [g])[..|shown|] == shown;
      }
    }
  }

  function OwnIn(gs: seq<WorldGroup>, c: Coalition, sectorId: string): seq<WorldGroup> {
    Own(Under(gs, GroupSector, sectorId), c)
  }

  lemma OwnInStep(gs: seq<WorldGroup>, g: WorldGroup, c: Coalition, sectorId: string)
    ensures OwnIn(gs + [g], c, sectorId) ==
            OwnIn(gs, c, sectorId) + if GroupSector(g) == Some(sectorId) && g.coalition == Some(c) then [g] else []
  {
    var there := Under(gs, GroupSector, sectorId);
    assert (there + [g])[..|there|] == there && there + [] == there;
  }

  lemma {:induction false} OwnOfShown(gs: seq<WorldGroup>, log: seq<Evidence>, c: Coalition, ownIds: set<string>, sectorId: string)
    ensures OwnIn(Shown(gs, log, c, ownIds), c, sectorId) == OwnIn(gs, c, sectorId)
  {
    hide Relevant, OwnIn;
    if gs != [] {
      var front, g := gs[..|gs| - 1], gs[|gs| - 1];
      assert gs == front + [g];
      OwnOfShown(front, log, c, ownIds, sectorId);
      OwnInStep(front, g, c, sectorId);
      OwnInStep(Shown(front, log, c, ownIds), g, c, sectorId);
    }
  }

  // ------------------------------------------------------------------- knowledge

  lemma KnowledgeIsBlind(
      sc: Scenario, policy: Policy, a: WorldSnapshot, b: WorldSnapshot, c: Coalition, ownIds: set<string>, now: int)
    requires SameButHidden(a, b, c, ownIds)
    ensures KnowledgeFor(sc, policy, a, c, now) == KnowledgeFor(sc, policy, b, c, now)
  {
    hide Tracks, Shown, FriendlyIds, Activity, Archived, ById;
    var shown := Shown(a.groups, a.evidence, c, ownIds);
    TracksOfShown(sc, policy, a, a.groups, c, ownIds, now);
    TracksOfShown(sc, policy, b, b.groups, c, ownIds, now);
    TracksNeedEvidenceOnly(sc, policy, a, b, shown, c, now);
    FriendliesOfShown(a.groups, a.evidence, c, ownIds);
    FriendliesOfShown(b.groups, b.evidence, c, ownIds);
  }

  // --------------------------------------------------------------------- picture

  lemma EntryIsBlind(
      sc: Scenario, a: WorldSnapshot, b: WorldSnapshot, contacts: seq<Track>, c: Coalition, previous: seq<SectorEntry>,
      ownIds: set<string>, sector: Sector)
    requires SameButHidden(a, b, c, ownIds)
    ensures EntryFor(sc, a, contacts, c, previous, sector) == EntryFor(sc, b, contacts, c, previous, sector)
  {
    OwnOfShown(a.groups, a.evidence, c, ownIds, sector.id);
    OwnOfShown(b.groups, b.evidence, c, ownIds, sector.id);
    assert OwnIn(a.groups, c, sector.id) == OwnIn(b.groups, c, sector.id);
    hide Filter, Under, SectorControl, MaxConfidence, ActivityLevelOf, Importance, FindEntry, NotesFor, Shown;
  }

  lemma SummaryIsBlind(
      sc: Scenario, a: WorldSnapshot, b: WorldSnapshot, contacts: seq<Track>, c: Coalition, previous: seq<SectorEntry>,
      ownIds: set<string>)
    requires SameButHidden(a, b, c, ownIds)
    ensures SectorSummary(sc, a, contacts, c, previous) == SectorSummary(sc, b, contacts, c, previous)
  {
    hide SameButHidden, EntryFor;
    forall s {
      EntryIsBlind(sc, a, b, contacts, c, previous, ownIds, s);
    }
  }

  lemma ForcesAreBlind(a: WorldSnapshot, b: WorldSnapshot, active: seq<ActiveGroup>, c: Coalition, ownIds: set<string>)
    requires SameButHidden(a, b, c, ownIds) && forall g <- active :: g.id in ownIds
    ensures FriendlyForces(active, a) == FriendlyForces(active, b)
  {
    var sorted := Ordering.SortBy(active, (g: ActiveGroup) => g.id);
    Ordering.SameElements(active, (g: ActiveGroup) => g.id);
    hide Shown, ForceFor;
    forall i | 0 <= i < |sorted|
      ensures FindWorldGroup(a.groups, sorted[i].id) == FindWorldGroup(b.groups, sorted[i].id)
    {
      assert sorted[i] in sorted;
      LookupOfShown(a.groups, a.evidence, c, ownIds, sorted[i].id);
      LookupOfShown(b.groups, b.evidence, c, ownIds, sorted[i].id);
    }
  }

  lemma PointsAreBlind(sc: Scenario, a: WorldSnapshot, b: WorldSnapshot, c: Coalition)
    requires a.controlPoints == b.controlPoints
    ensures KnownPoints(sc, a, c) == KnownPoints(sc, b, c)
  {
  }

  /** Fog-of-war secrecy: whatever is done to groups a coalition cannot know of, its whole
      picture, recent changes and decision requests included, stays the same. */
  lemma PictureIsBlind(
      sc: Scenario, policy: Policy, a: WorldSnapshot, b: WorldSnapshot, own: OwnSide, c: Coalition, cycle: int, elapsed: int,
      previous: Option<Picture>, now: int)
    requires SameButHidden(a, b, c, set g <- own.active :: g.id)
    ensures Observe(sc, policy, a, own, c, cycle, elapsed, previous, now) ==
            Observe(sc, policy, b, own, c, cycle, elapsed, previous, now)
  {
    var ownIds := set g <- own.active :: g.id;
    KnowledgeIsBlind(sc, policy, a, b, c, ownIds, now);
    SummaryIsBlind(sc, a, b, KnowledgeFor(sc, policy, a, c, now).contacts, c,
                   if previous.Some? then previous.value.sectors else [], ownIds);
    ForcesAreBlind(a, b, own.active, c, ownIds);
    PointsAreBlind(sc, a, b, c);
    hide KnowledgeFor, SectorSummary, FriendlyForces, KnownPoints;
  }

  // ------------------------------------------------------ from the picture to verdicts

  /** The store behind a snapshot, and the coalition's own rows in it. */
  ghost predicate Holds(st: StoreState, world: WorldSnapshot, own: OwnSide, c: Coalition) {
    && c in st.budgets && st.budgets[c] == own.state.budgetRemaining
    && (forall id :: Lookup(st.world, id) == FindWorldGroup(world.groups, id))
    && (forall g <- st.active :: st.active[g].id == g)
    && (forall g :: g in own.active <==> g.id in st.active && st.active[g.id] == g && g.coalition == c)
    && (forall r <- st.reserves :: st.reserves[r].id == r)
    && (forall r :: r in own.reserves <==> r.id in st.reserves && st.reserves[r.id] == r && r.coalition == c)
  }

  lemma RecordsAgree(
      a: StoreState, b: StoreState, wa: WorldSnapshot, wb: WorldSnapshot, own: OwnSide, c: Coalition, id: string)
    requires Holds(a, wa, own, c) && Holds(b, wb, own, c)
    requires SameButHidden(wa, wb, c, set g <- own.active :: g.id) && id in (set g <- own.active :: g.id)
    ensures Lookup(a.world, id) == Lookup(b.world, id)
  {
    var ownIds := set g <- own.active :: g.id;
    LookupOfShown(wa.groups, wa.evidence, c, ownIds, id);
    LookupOfShown(wb.groups, wb.evidence, c, ownIds, id);
  }

  /** Stores that differ in hidden groups only, and agree on the coalition's own rows, look
      alike to the validator. */
  lemma StoresLookAlike(
      a: StoreState, b: StoreState, wa: WorldSnapshot, wb: WorldSnapshot, own: OwnSide, c: Coalition,
      known: Option<seq<KnownControlPoint>>)
    requires Holds(a, wa, own, c) && Holds(b, wb, own, c) && SameButHidden(wa, wb, c, set g <- own.active :: g.id)
    ensures LooksAlike(ContextOf(a, c, known), ContextOf(b, c, known))
  {
    var x, y := ContextOf(a, c, known), ContextOf(b, c, known);
    forall g | OwnGroup(x, g) || OwnGroup(y, g)
      ensures OwnGroup(x, g) && OwnGroup(y, g) && x.active[g] == y.active[g]
      ensures SameWorldRecord(x, y, g)
    {
      assert OwnGroup(x, g) ==> x.active[g] in own.active;
      assert OwnGroup(y, g) ==> y.active[g] in own.active;
      hide SameButHidden;
      RecordsAgree(a, b, wa, wb, own, c, g);
      assert Lookup(a.world, g) == Lookup(b.world, g);
    }
    forall r | OwnReserve(x, r) || OwnReserve(y, r)
      ensures OwnReserve(x, r) && OwnReserve(y, r) && x.reserves[r] == y.reserves[r]
    {
      assert OwnReserve(x, r) ==> x.reserves[r] in own.reserves;
      assert OwnReserve(y, r) ==> y.reserves[r] in own.reserves;
    }
  }

  /** End to end: neither the picture a commander gets nor the verdicts on what the commander
      then orders reveal anything about hidden groups. */
  lemma CommanderIsBlind(
      sc: Scenario, policy: Policy, a: StoreState, b: StoreState, wa: WorldSnapshot, wb: WorldSnapshot, own: OwnSide,
      c: Coalition, cycle: int, elapsed: int, previous: Option<Picture>, now: int, payload: seq<RawAction>)
    requires Holds(a, wa, own, c) && Holds(b, wb, own, c) && SameButHidden(wa, wb, c, set g <- own.active :: g.id)
    ensures var pa := Observe(sc, policy, wa, own, c, cycle, elapsed, previous, now);
      var pb := Observe(sc, policy, wb, own, c, cycle, elapsed, previous, now);
      var vs := ValidateBatch(sc, ContextOf(a, c, Some(pa.knownPoints)), payload);
      var ws := ValidateBatch(sc, ContextOf(b, c, Some(pb.knownPoints)), payload);
      pa == pb && |vs| == |ws| && forall i :: 0 <= i < |vs| ==> VerdictsAlike(vs[i], ws[i])
  {
    hide Observe, ValidateBatch, LooksAlike, SameButHidden;
    PictureIsBlind(sc, policy, wa, wb, own, c, cycle, elapsed, previous, now);
    var known := Some(Observe(sc, policy, wa, own, c, cycle, elapsed, previous, now).knownPoints);
    StoresLookAlike(a, b, wa, wb, own, c, known);
    BatchIsBlind(sc, ContextOf(a, c, known), ContextOf(b, c, known), payload);
  }

  // ------------------------------------------- what the picture says about own points

  lemma {:induction false} FirstStatusInList(points: seq<KnownControlPoint>, p: KnownControlPoint)
    requires p in points && forall q <- points :: q.id == p.id ==> q == p
    ensures FirstStatus(points, p.id) == Some(p.status)
  {
    assert points == [points[0]] + points[1..];
    if points[0].id != p.id {
      FirstStatusInList(points[1..], p);
    }
  }

  /** Once a picture exists, the validator takes a control point for the coalition's own exactly
      when the world says so; an unowned point counts as contested only before that. */
  lemma ReinforcementFollowsPicture(sc: Scenario, world: WorldSnapshot, ctx: Context, p: ControlPoint)
    requires p in sc.controlPoints && forall q <- sc.controlPoints :: q.id == p.id ==> q == p
    requires ctx.knownPoints in {None, Some(KnownPoints(sc, world, ctx.coalition))}
    ensures ctx.knownPoints.Some? ==> (ReinforcementTarget(ctx, p) <==> PointOwner(world, p) == Some(ctx.coalition))
    ensures ctx.knownPoints.None? ==> (ReinforcementTarget(ctx, p) <==> p.owner in {None, Some(ctx.coalition)})
  {
    if ctx.knownPoints.Some? {
      var sorted := Ordering.SortBy(sc.controlPoints, (q: ControlPoint) => q.id);
      Ordering.SameElements(sc.controlPoints, (q: ControlPoint) => q.id);
      var known := KnownPoints(sc, world, ctx.coalition);
      var entry := KnownControlPoint(p.id, p.name, p.kind, p.sectorId, OwnerStatus(PointOwner(world, p), ctx.coalition));
      var i :| 0 <= i < |sorted| && sorted[i] == p;
      assert known[i] == entry;
      forall q | q in known && q.id == p.id ensures q == entry {
        var j :| 0 <= j < |known| && known[j] == q;
        assert sorted[j] in sorted;
      }
      FirstStatusInList(known, entry);
    }
  }
}
