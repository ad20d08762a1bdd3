/** One payload validated twice in one cycle, and the review this loses. */
module ValidatedTwice {
  import opened Domain
  import opened Requests
  import opened Validation
  import opened Working
  import opened Conflicts
  import opened Batches
  import opened Fusion
  import Observation
  import opened Findings
  import opened Reviews
  import opened ReviewKeys
  import opened Payloads
  import opened Overdraft
  import opened ScenarioRoundTrip
  import Ordering

  /** A group of Blue's that nobody has reported. */
  const LURKER := WorldGroup(
    "lurker", "7", Some(Blue), "armor", None, None, Some("field"), None, None, None, None, None, None, None, "olympus", 0,
    false, true)

  const UNSEEN := WorldSnapshot(None, None, [LURKER], [], [])

  const LOOK := Entry("look", SetSectorPriority, map["sector_id" := JString("field"), "priority" := JString("high")])

  lemma {:induction false} NothingTracked(
      sc: Scenario, policy: Policy, world: WorldSnapshot, gs: seq<WorldGroup>, c: Coalition, now: int)
    requires world.evidence == []
    ensures Tracks(sc, policy, world, gs, c, now) == []
  {
    if gs != [] {
      NothingTracked(sc, policy, world, gs[..|gs| - 1], c, now);
    }
  }

  /** Without evidence a picture shows no contact and no threat. */
  lemma NothingSeen(
      sc: Scenario, policy: Policy, world: WorldSnapshot, own: Observation.OwnSide, c: Coalition, cycle: int, elapsed: int,
      previous: Option<Observation.Picture>, now: int)
    requires world.evidence == []
    ensures VisibleSectors(Observation.Observe(sc, policy, world, own, c, cycle, elapsed, previous, now)) == {}
  {
    NothingTracked(sc, policy, world, world.groups, c, now);
    NoneArchived();
    var knowledge := KnowledgeFor(sc, policy, world, c, now);
    assert knowledge.contacts == [] by {
      assert multiset(knowledge.contacts) == multiset(Archived([], false));
    }
    assert Observation.EnemyContacts(knowledge) == [];
    var earlier := if previous.Some? then previous.value.sectors else [];
    NoThreatNoted(sc, world, c, earlier);
    hide Observation.EnemyContacts, Observation.SectorSummary, KnowledgeFor, Observation.RecentChanges,
      Observation.Asks;
  }

  lemma NoThreatNoted(sc: Scenario, world: WorldSnapshot, c: Coalition, earlier: seq<Observation.SectorEntry>)
    ensures forall s <- Observation.SectorSummary(sc, world, [], c, earlier) :: s.enemyThreat == Observation.LowBand
  {
    hide Observation.Importance, Observation.ActivityLevelOf, Observation.SectorControl, Observation.NotesFor;
    var sectors, all := Observation.SortedSectors(sc), Observation.SectorSummary(sc, world, [], c, earlier);
    forall s | s in all ensures s.enemyThreat == Observation.LowBand {
      var i :| 0 <= i < |all| && all[i] == s;
      assert all[i] == Observation.EntryFor(sc, world, [], c, earlier, sectors[i]);
      assert Observation.Under([], TrackSector, sectors[i].id) == [];
    }
  }

  lemma LookParses()
    ensures ParseRequest(LOOK, Red) == Parsed(Prioritize("field", PriorityHigh), false)
  {
    WordsAreFilled();
    StartsFilled("look");
    var fields := map["sector_id" := JString("field"), "priority" := JString("high")];
    assert |"sector_id"| == 9 && |"priority"| == 8;
    assert Get(fields, "sector_id") == JString("field") && Get(fields, "priority") == JString("high");
    hide IsBlank, IsSpace;
    assert ParsePriority("high") == Ok(PriorityHigh);
    assert Schema(SetSectorPriority, fields) == Ok(Normalized(Prioritize("field", PriorityHigh), false));
    hide Schema;
    EntryParses("look", SetSectorPriority, fields, Prioritize("field", PriorityHigh), Red);
  }

  lemma LookIsAccepted(ctx: Context)
    requires ctx.coalition == Red
    ensures var vs := ValidateBatch(DUEL, ctx, [LOOK]);
      |vs| == 1 && Candidate(vs[0]) && vs[0].params == Some(Prioritize("field", PriorityHigh))
  {
    LookParses();
    assert Legal(DUEL, ctx, Prioritize("field", PriorityHigh)) by {
      assert DUEL.sectors[0] == FIELD;
      assert FindSector(DUEL.sectors, "field").Some?;
    }
    hide ParseRequest, Legal, ValidateBatch, Candidate, ReadActionId;
    OneSurvives(DUEL, ctx, LOOK, Prioritize("field", PriorityHigh));
  }

  /** Red's picture of cycle 1, and the batch its order was stored as. */
  function FirstPicture(policy: Policy, now: int): Observation.Picture {
    Observation.Observe(
      DUEL, policy, UNSEEN, Observation.OwnSide(DUEL.coalitions[0], [], DUEL.reserveGroups), Red, 1, 0, None, now)
  }

  function StoredBatch(ctx: Context): BatchRecord {
    BatchRecord(Red, 1, ValidateBatch(DUEL, ctx, [LOOK]))
  }

  /** The record of a run in which that payload was validated twice. */
  function TwiceValidated(policy: Policy, ctx: Context, now: int): Record {
    Record(DUEL, [LURKER], [ObservationRecord(Red, 1, FirstPicture(policy, now))], [StoredBatch(ctx), StoredBatch(ctx)], false)
  }

  lemma LurkerIsThere()
    ensures "field" in EnemySectors([LURKER], Red)
  {
    assert LURKER in [LURKER];
  }

  /** An order that was let through, against a sector where the enemy is and the picture shows nobody. */
  lemma HiddenOrderIsDrafted(
      r: Record, b: BatchRecord, picture: Observation.Picture, v: Verdict, sector: string, level: SectorPriority)
    requires v in b.verdicts && FindObservation(r.observations, b.coalition, b.cycle) == Some(picture)
    requires Candidate(v) && v.params == Some(Prioritize(sector, level)) && sector != ""
    requires sector in EnemySectors(r.groups, b.coalition) && VisibleSectors(picture) == {}
    ensures BatchDrafts(r, [b]) != []
  {
    var enemies, d := EnemySectors(r.groups, b.coalition), HiddenDraft(b.coalition, b.cycle, v, sector);
    hide FindObservation, EnemySectors, VisibleSectors, DoubtfulSectors, HiddenDraft, StaleDraft, AmbushDraft,
      BatchDrafts;
    assert TargetSector(r.scenario, v.params) == Some(sector) && OnHidden(r.scenario, enemies, picture, v);
    assert d in DraftsFor(r.scenario, enemies, picture, b.coalition, b.cycle, v);
    hide DraftsFor, OnHidden, TargetSector;
    assert GivesRise(r, b, d) && b in [b];
    BatchDraftListed(r, [b], d);
  }

  lemma OnlyObservation(c: Coalition, cycle: int, picture: Observation.Picture)
    ensures FindObservation([ObservationRecord(c, cycle, picture)], c, cycle) == Some(picture)
  {
  }

  lemma LookIsFlagged(policy: Policy, ctx: Context, now: int)
    requires ctx.coalition == Red
    ensures BatchDrafts(TwiceValidated(policy, ctx, now), [StoredBatch(ctx)]) != []
  {
    hide Observation.Observe, ValidateBatch, EnemySectors, VisibleSectors, FindObservation, BatchDrafts;
    var own := Observation.OwnSide(DUEL.coalitions[0], [], DUEL.reserveGroups);
    NothingSeen(DUEL, policy, UNSEEN, own, Red, 1, 0, None, now);
    LookIsAccepted(ctx);
    LurkerIsThere();
    var r, b, picture := TwiceValidated(policy, ctx, now), StoredBatch(ctx), FirstPicture(policy, now);
    OnlyObservation(Red, 1, picture);
    hide FirstPicture;
    HiddenOrderIsDrafted(r, b, picture, b.verdicts[0], "field", PriorityHigh);
  }

  /** A scenario that loads, a picture its observer paints, an order the validator accepts, stored twice:
      the evaluation drafts two findings of one key, and clearing the first is undone at once. */
  lemma SecondValidationLosesReview(policy: Policy, ctx: Context, now: int, r: Record, rows: seq<Finding>)
    requires ctx.coalition == Red && r == TwiceValidated(policy, ctx, now) && Evaluated(rows, Drafts(r))
    ensures Loadable(r.scenario) && !DistinctKeys(Drafts(r)) && |rows| > 1
    ensures Carried(rows[0 := rows[0].(human := Human(Cleared, None, Some(now)))], Drafts(r)) == Contents(rows)
  {
    hide Loadable, Drafts, BatchDrafts, StoredBatch, FirstPicture, DistinctKeys, Carried, Evaluated;
    DuelLoads();
    LookIsFlagged(policy, ctx, now);
    EarlierReviewIsLost(r, StoredBatch(ctx), rows, Human(Cleared, None, Some(now)));
  }
}
