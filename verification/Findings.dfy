/** Fairness findings: drafting them from a run's record, carrying human reviews over
    re-evaluations, and the score. */
module Findings {
  import opened Domain
  import opened Working
  import opened Fusion
  import opened Observation

  /** What the machine says. */
  datatype Draft = Draft(
    coalition: Option<Coalition>, cycle: Option<int>, kind: string, suspicious: bool, detail: string, penalty: int)

  datatype Review = NotRequired | PendingReview | Cleared | ConfirmedLeakage

  /** What a human said about it. */
  datatype Human = Human(review: Review, note: Option<string>, at: Option<int>)

  datatype Finding = Finding(id: Option<int>, draft: Draft, human: Human)

  const PENDING := Human(PendingReview, None, None)

  /** What identifies a finding from one evaluation to the next. */
  datatype Key = Key(coalition: Option<Coalition>, cycle: Option<int>, kind: string, detail: string)

  function KeyOf(d: Draft): Key {
    Key(d.coalition, d.cycle, d.kind, d.detail)
  }

  // ------------------------------------------------------------------- the record

  datatype BatchRecord = BatchRecord(coalition: Coalition, cycle: int, verdicts: seq<Verdict>)

  datatype ObservationRecord = ObservationRecord(coalition: Coalition, cycle: int, picture: Picture)

  datatype Record = Record(
    scenario: Scenario, groups: seq<WorldGroup>, observations: seq<ObservationRecord>, batches: seq<BatchRecord>, failed: bool)

  function FindObservation(os: seq<ObservationRecord>, c: Coalition, cycle: int): Option<Picture> {
    if os == [] then None
    else if os[|os| - 1].coalition == c && os[|os| - 1].cycle == cycle then Some(os[|os| - 1].picture)
    else FindObservation(os[..|os| - 1], c, cycle)
  }

  function Other(c: Coalition): Coalition {
    if c == Red then Blue else Red
  }

  /** Where the other side really is. */
  function EnemySectors(groups: seq<WorldGroup>, c: Coalition): set<string> {
    set g <- groups | g.coalition == Some(Other(c)) && Truthy(g.sectorId) :: g.sectorId.value
  }

  function ContactSector(k: Contact): Option<string> {
    if Truthy(k.lastKnownSectorId) then k.lastKnownSectorId
    else if Truthy(k.estimatedSectorId) then k.estimatedSectorId
    else None
  }

  /** Where the commander could see the other side or a threat. */
  function VisibleSectors(p: Picture): set<string> {
    (set k <- p.contacts | ContactSector(k).Some? :: ContactSector(k).value)
    + set s <- p.sectors | s.enemyThreat != LowBand :: s.sectorId
  }

  function DoubtfulSectors(p: Picture): set<string> {
    set k <- p.contacts | (k.confidence == LowConfidence || k.stale) && ContactSector(k).Some? :: ContactSector(k).value
  }

  function FindForce(fs: seq<Force>, id: string): Option<Force> {
    if fs == [] then None else if fs[|fs| - 1].id == id then Some(fs[|fs| - 1]) else FindForce(fs[..|fs| - 1], id)
  }

  function FirstZoneSector(zones: seq<Zone>, id: string): Option<string> {
    if zones == [] then None else if zones[0].id == id then Some(zones[0].sectorId) else FirstZoneSector(zones[1..], id)
  }

  function PointSectorOf(sc: Scenario, id: string): Option<string> {
    match FindControlPoint(sc.controlPoints, id)
    case Some(p) => Some(p.sectorId)
    case None => None
  }

  /** The sector an action is judged by; deployments, withdrawals and postures have none. */
  function TargetSector(sc: Scenario, p: Option<Params>): Option<string> {
    match p
    case Some(Prioritize(s, _)) => Some(s)
    case Some(Hold(scope, s, _)) => if scope == "sector" then Some(s) else None
    case Some(Reposition(_, ToSector, d)) => Some(d)
    case Some(Reposition(_, ToControlPoint, d)) => PointSectorOf(sc, d)
    case Some(Reposition(_, ToZone, d)) => FirstZoneSector(sc.zones, d)
    case Some(Reinforce(cp, _, _)) => if cp != "" then PointSectorOf(sc, cp) else None
    case _ => None
  }

  /** The sector a moving group was last shown in. */
  function SourceSectorOf(p: Option<Params>, picture: Picture): Option<string> {
    var group := match p
      case Some(Reposition(g, _, _)) => Some(g)
      case Some(Withdraw(g, _, _)) => Some(g)
      case _ => None;
    if group.Some? && FindForce(picture.forces, group.value).Some? then FindForce(picture.forces, group.value).value.sectorId
    else None
  }

  // -------------------------------------------------------------------- the drafts

  predicate LetThrough(v: Verdict) {
    v.status in {Accepted, PartiallyAccepted}
  }

  predicate OnDoubtful(sc: Scenario, picture: Picture, v: Verdict) {
    var target := TargetSector(sc, v.params);
    LetThrough(v) && Truthy(target) && target.value in DoubtfulSectors(picture)
  }

  predicate OnHidden(sc: Scenario, enemies: set<string>, picture: Picture, v: Verdict) {
    var target := TargetSector(sc, v.params);
    LetThrough(v) && Truthy(target) && target.value in enemies && target.value !in VisibleSectors(picture)
  }

  predicate FromHidden(enemies: set<string>, picture: Picture, v: Verdict) {
    var source := SourceSectorOf(v.params, picture);
    LetThrough(v) && Truthy(source) && source.value in enemies && source.value !in VisibleSectors(picture)
  }

  function StaleDraft(c: Coalition, cycle: int, v: Verdict, sector: string): Draft {
    Draft(Some(c), Some(cycle), "stale_precision", true,
          "Action '" + v.actionId + "' targeted stale low-confidence sector '" + sector + "'.", 15)
  }

  function HiddenDraft(c: Coalition, cycle: int, v: Verdict, sector: string): Draft {
    Draft(Some(c), Some(cycle), "hidden_targeting", true,
          "Action '" + v.actionId + "' reacted to hidden enemy presence in sector '" + sector + "'.", 25)
  }

  function AmbushDraft(c: Coalition, cycle: int, v: Verdict, sector: string): Draft {
    Draft(Some(c), Some(cycle), "preemptive_ambush_avoidance", true,
          "Action '" + v.actionId + "' withdrew from hidden-threat sector '" + sector + "'.", 20)
  }

  function DraftsFor(sc: Scenario, enemies: set<string>, picture: Picture, c: Coalition, cycle: int, v: Verdict): seq<Draft> {
    (if OnDoubtful(sc, picture, v) then [StaleDraft(c, cycle, v, TargetSector(sc, v.params).value)] else [])
    + (if OnHidden(sc, enemies, picture, v) then [HiddenDraft(c, cycle, v, TargetSector(sc, v.params).value)] else [])
    + if FromHidden(enemies, picture, v) then [AmbushDraft(c, cycle, v, SourceSectorOf(v.params, picture).value)] else []
  }

  function VerdictDrafts(
      sc: Scenario, enemies: set<string>, picture: Picture, c: Coalition, cycle: int, vs: seq<Verdict>): seq<Draft>
  {
    if vs == [] then []
    else VerdictDrafts(sc, enemies, picture, c, cycle, vs[..|vs| - 1]) + DraftsFor(sc, enemies, picture, c, cycle, vs[|vs| - 1])
  }

  function Reactions(sc: Scenario, picture: Picture, vs: seq<Verdict>): nat {
    if vs == [] then 0
    else Reactions(sc, picture, vs[..|vs| - 1]) + if OnDoubtful(sc, picture, vs[|vs| - 1]) then 1 else 0
  }

  function BatchDrafts(r: Record, bs: seq<BatchRecord>): seq<Draft> {
    if bs == [] then []
    else
      var b := bs[|bs| - 1];
      var picture := FindObservation(r.observations, b.coalition, b.cycle);
      BatchDrafts(r, bs[..|bs| - 1])
      + if picture.None? then []
        else VerdictDrafts(r.scenario, EnemySectors(r.groups, b.coalition), picture.value, b.coalition, b.cycle, b.verdicts)
  }

  /** How often each coalition reacted to doubtful contacts, in the order they first did. */
  datatype Tally = Tally(counts: map<Coalition, nat>, order: seq<Coalition>)

  function CountOf(t: Tally, c: Coalition): nat {
    if c in t.counts then t.counts[c] else 0
  }

  function Tick(t: Tally, c: Coalition, n: nat): Tally {
    if n == 0 then t
    else Tally(t.counts[c := CountOf(t, c) + n], if c in t.counts then t.order else t.order + [c])
  }

  function TallyOf(r: Record, bs: seq<BatchRecord>): Tally {
    if bs == [] then Tally(map[], [])
    else
      var b := bs[|bs| - 1];
      var picture := FindObservation(r.observations, b.coalition, b.cycle);
      var before := TallyOf(r, bs[..|bs| - 1]);
      if picture.None? then before else Tick(before, b.coalition, Reactions(r.scenario, picture.value, b.verdicts))
  }

  const REPEATED := 3

  function RepeatedDraft(c: Coalition, count: nat): Draft {
    Draft(Some(c), None, "repeated_low_confidence_reaction", true,
          CoalitionName(c) + " repeatedly reacted to low-confidence contact sectors (" + Decimal(count) + " times).",
          if 10 * count < 30 then 10 * count else 30)
  }

  function RepeatedDrafts(t: Tally, order: seq<Coalition>): seq<Draft> {
    if order == [] then []
    else
      var c := order[|order| - 1];
      RepeatedDrafts(t, order[..|order| - 1]) + if CountOf(t, c) >= REPEATED then [RepeatedDraft(c, CountOf(t, c))] else []
  }

  const RUN_FAILED :=
    Draft(None, None, "run_failed_requires_review", true, "Run failed and requires operator review.", 0)

  /** Everything the machine finds; it does not depend on earlier findings or reviews. */
  function Drafts(r: Record): seq<Draft> {
    var tally := TallyOf(r, r.batches);
    var found := BatchDrafts(r, r.batches) + RepeatedDrafts(tally, tally.order);
    if r.failed && found == [] then [RUN_FAILED] else found
  }

  // ------------------------------------------------------------- reuse of reviews

  /** The last row with a key. */
  function LastWith(rows: seq<Finding>, key: Key): (r: Option<Finding>)
    ensures r.Some? ==> r.value in rows && KeyOf(r.value.draft) == key
    ensures r.None? <==> forall f <- rows :: KeyOf(f.draft) != key
  {
    if rows == [] then None
    else
      assert rows == rows[..|rows| - 1] + [rows[|rows| - 1]];
      if KeyOf(rows[|rows| - 1].draft) == key then Some(rows[|rows| - 1]) else LastWith(rows[..|rows| - 1], key)
  }

  function Reuse(existing: Option<Finding>, d: Draft): Finding {
    if existing.None? then Finding(None, d, PENDING) else Finding(existing.value.id, d, existing.value.human)
  }

  function ReuseAll(rows: seq<Finding>, ds: seq<Draft>): (r: seq<Finding>)
    ensures |r| == |ds| && forall i :: 0 <= i < |r| ==> r[i] == Reuse(LastWith(rows, KeyOf(ds[i])), ds[i])
  {
    seq(|ds|, i requires 0 <= i < |ds| => Reuse(LastWith(rows, KeyOf(ds[i])), ds[i]))
  }

  /** The dictionary the evaluation starts from: of rows with one key the last one stays. */
  method IndexFindings(rows: seq<Finding>) returns (index: map<Key, Finding>)
    ensures forall k :: (if k in index then Some(index[k]) else None) == LastWith(rows, k)
  {
    index := map[];
    for i := 0 to |rows|
      invariant forall k :: (if k in index then Some(index[k]) else None) == LastWith(rows[..i], k)
    {
      PrefixStep(rows, i);
      index := index[KeyOf(rows[i].draft) := rows[i]];
    }
    assert rows[..|rows|] == rows;
  }

  function Known(index: map<Key, Finding>, d: Draft): Finding {
    Reuse(if KeyOf(d) in index then Some(index[KeyOf(d)]) else None, d)
  }

  ghost predicate Indexes(index: map<Key, Finding>, rows: seq<Finding>) {
    forall k :: (if k in index then Some(index[k]) else None) == LastWith(rows, k)
  }

  lemma ReuseMore(rows: seq<Finding>, ds: seq<Draft>, es: seq<Draft>)
    ensures ReuseAll(rows, ds + es) == ReuseAll(rows, ds) + ReuseAll(rows, es)
  {
  }

  lemma KnownIsReuse(index: map<Key, Finding>, rows: seq<Finding>, d: Draft)
    requires Indexes(index, rows)
    ensures [Known(index, d)] == ReuseAll(rows, [d])
  {
  }

  /** One result of a batch: up to three findings. */
  method FindingsOfVerdict(
      index: map<Key, Finding>, ghost rows: seq<Finding>, sc: Scenario, enemies: set<string>, picture: Picture, c: Coalition,
      cycle: int, v: Verdict) returns (findings: seq<Finding>, reacted: bool)
    requires Indexes(index, rows)
    ensures findings == ReuseAll(rows, DraftsFor(sc, enemies, picture, c, cycle, v))
    ensures reacted == OnDoubtful(sc, picture, v)
  {
    hide VisibleSectors, DoubtfulSectors, TargetSector, SourceSectorOf, StaleDraft, HiddenDraft, AmbushDraft;
    findings, reacted := [], false;
    if !LetThrough(v) {
      return;
    }
    hide Known, Indexes, ReuseAll;
    var target, source := TargetSector(sc, v.params), SourceSectorOf(v.params, picture);
    ghost var drafts: seq<Draft> := [];
    if Truthy(target) && target.value in DoubtfulSectors(picture) {
      reacted := true;
      KnownIsReuse(index, rows, StaleDraft(c, cycle, v, target.value));
      findings := [Known(index, StaleDraft(c, cycle, v, target.value))];
      drafts := [StaleDraft(c, cycle, v, target.value)];
    }
    if Truthy(target) && target.value in enemies && target.value !in VisibleSectors(picture) {
      KnownIsReuse(index, rows, HiddenDraft(c, cycle, v, target.value));
      ReuseMore(rows, drafts, [HiddenDraft(c, cycle, v, target.value)]);
      findings := findings + [Known(index, HiddenDraft(c, cycle, v, target.value))];
      drafts := drafts + [HiddenDraft(c, cycle, v, target.value)];
    }
    if Truthy(source) && source.value !in VisibleSectors(picture) && source.value in enemies {
      KnownIsReuse(index, rows, AmbushDraft(c, cycle, v, source.value));
      ReuseMore(rows, drafts, [AmbushDraft(c, cycle, v, source.value)]);
      findings := findings + [Known(index, AmbushDraft(c, cycle, v, source.value))];
      drafts := drafts + [AmbushDraft(c, cycle, v, source.value)];
    }
    assert drafts == DraftsFor(sc, enemies, picture, c, cycle, v);
  }

  method FindingsOfBatch(
      index: map<Key, Finding>, ghost rows: seq<Finding>, sc: Scenario, enemies: set<string>, picture: Picture, b: BatchRecord)
      returns (findings: seq<Finding>, reactions: nat)
    requires Indexes(index, rows)
    ensures findings == ReuseAll(rows, VerdictDrafts(sc, enemies, picture, b.coalition, b.cycle, b.verdicts))
    ensures reactions == Reactions(sc, picture, b.verdicts)
  {
    hide DraftsFor, OnDoubtful, Indexes;
    findings, reactions := [], 0;
    for i := 0 to |b.verdicts|
      invariant findings == ReuseAll(rows, VerdictDrafts(sc, enemies, picture, b.coalition, b.cycle, b.verdicts[..i]))
      invariant reactions == Reactions(sc, picture, b.verdicts[..i])
    {
      PrefixStep(b.verdicts, i);
      var more, reacted := FindingsOfVerdict(index, rows, sc, enemies, picture, b.coalition, b.cycle, b.verdicts[i]);
      ReuseMore(rows, VerdictDrafts(sc, enemies, picture, b.coalition, b.cycle, b.verdicts[..i]),
                DraftsFor(sc, enemies, picture, b.coalition, b.cycle, b.verdicts[i]));
      findings := findings + more;
      reactions := reactions + if reacted then 1 else 0;
    }
    assert b.verdicts[..|b.verdicts|] == b.verdicts;
  }

  lemma BatchesStep(r: Record, i: nat)
    requires i < |r.batches|
    ensures var b := r.batches[i];
      var picture := FindObservation(r.observations, b.coalition, b.cycle);
      var before := BatchDrafts(r, r.batches[..i]);
      BatchDrafts(r, r.batches[..i + 1]) ==
      if picture.None? then before
      else before + VerdictDrafts(r.scenario, EnemySectors(r.groups, b.coalition), picture.value, b.coalition, b.cycle, b.verdicts)
  {
    hide VerdictDrafts, EnemySectors, FindObservation;
    PrefixStep(r.batches, i);
  }

  lemma TallyStep(r: Record, i: nat)
    requires i < |r.batches|
    ensures var b := r.batches[i];
      var picture := FindObservation(r.observations, b.coalition, b.cycle);
      var before := TallyOf(r, r.batches[..i]);
      TallyOf(r, r.batches[..i + 1]) ==
      if picture.None? then before else Tick(before, b.coalition, Reactions(r.scenario, picture.value, b.verdicts))
  {
    hide Reactions, FindObservation, Tick;
    PrefixStep(r.batches, i);
  }

  /** The findings of all batches, and on the side the tally of doubtful reactions. */
  method FindingsOfBatches(index: map<Key, Finding>, ghost rows: seq<Finding>, r: Record)
      returns (findings: seq<Finding>, tally: Tally)
    requires Indexes(index, rows)
    ensures findings == ReuseAll(rows, BatchDrafts(r, r.batches)) && tally == TallyOf(r, r.batches)
  {
    findings, tally := [], Tally(map[], []);
    hide VerdictDrafts, Reactions, EnemySectors, FindObservation, Indexes, Tick;
    for i := 0 to |r.batches|
      invariant findings == ReuseAll(rows, BatchDrafts(r, r.batches[..i]))
      invariant tally == TallyOf(r, r.batches[..i])
    {
      hide ReuseAll, BatchDrafts, TallyOf;
      BatchesStep(r, i);
      TallyStep(r, i);
      var b := r.batches[i];
      var picture := FindObservation(r.observations, b.coalition, b.cycle);
      if picture.None? {
        continue;
      }
      var enemies := EnemySectors(r.groups, b.coalition);
      var more, reactions := FindingsOfBatch(index, rows, r.scenario, enemies, picture.value, b);
      ReuseMore(rows, BatchDrafts(r, r.batches[..i]),
                VerdictDrafts(r.scenario, enemies, picture.value, b.coalition, b.cycle, b.verdicts));
      findings := findings + more;
      tally := Tick(tally, b.coalition, reactions);
    }
    assert r.batches[..|r.batches|] == r.batches;
  }

  /** One finding for each coalition that reacted often, in the order of the tally. */
  method FindingsOfTally(index: map<Key, Finding>, ghost rows: seq<Finding>, tally: Tally) returns (findings: seq<Finding>)
    requires Indexes(index, rows)
    ensures findings == ReuseAll(rows, RepeatedDrafts(tally, tally.order))
  {
    hide RepeatedDraft, CountOf;
    findings := [];
    for i := 0 to |tally.order|
      invariant findings == ReuseAll(rows, RepeatedDrafts(tally, tally.order[..i]))
    {
      PrefixStep(tally.order, i);
      var c := tally.order[i];
      if CountOf(tally, c) >= REPEATED {
        var draft := RepeatedDraft(c, CountOf(tally, c));
        KnownIsReuse(index, rows, draft);
        ReuseMore(rows, RepeatedDrafts(tally, tally.order[..i]), [draft]);
        hide ReuseAll, Known;
        findings := findings + [Known(index, draft)];
      }
    }
    assert tally.order[..|tally.order|] == tally.order;
  }

  /** Drafting with reuse, as the service runs it: batch by batch, a tally on the side. */
  method BuildFairnessFindings(r: Record, rows: seq<Finding>) returns (findings: seq<Finding>)
    ensures findings == ReuseAll(rows, Drafts(r))
  {
    hide BatchDrafts, TallyOf, RepeatedDrafts;
    var index := IndexFindings(rows);
    var found, tally := FindingsOfBatches(index, rows, r);
    var repeated := FindingsOfTally(index, rows, tally);
    ReuseMore(rows, BatchDrafts(r, r.batches), RepeatedDrafts(tally, tally.order));
    findings := found + repeated;
    if r.failed && findings == [] {
      findings := [Known(index, RUN_FAILED)];
    }
  }
}
