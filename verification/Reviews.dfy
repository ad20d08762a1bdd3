/** The findings table of a run under re-evaluation and human review. */
module Reviews {
  import opened Domain
  import opened Working
  import opened Observation
  import opened Findings

  // ------------------------------------------------------------------ listing order

  /** Rows without a cycle come first. */
  predicate EarlierCycle(a: Option<int>, b: Option<int>) {
    b.Some? && (a.None? || a.value < b.value)
  }

  function Place(sorted: seq<Finding>, f: Finding): seq<Finding> {
    if sorted == [] || !EarlierCycle(f.draft.cycle, sorted[|sorted| - 1].draft.cycle) then sorted + [f]
    else Place(sorted[..|sorted| - 1], f) + [sorted[|sorted| - 1]]
  }

  /** The rows ordered by cycle, then by id, given in id order. */
  function Listing(rows: seq<Finding>): seq<Finding> {
    if rows == [] then [] else Place(Listing(rows[..|rows| - 1]), rows[|rows| - 1])
  }

  lemma {:induction false} PlaceKeepsLast(sorted: seq<Finding>, f: Finding, key: Key)
    ensures LastWith(Place(sorted, f), key) == if KeyOf(f.draft) == key then Some(f) else LastWith(sorted, key)
  {
    if sorted != [] && EarlierCycle(f.draft.cycle, sorted[|sorted| - 1].draft.cycle) {
      var front, last := sorted[..|sorted| - 1], sorted[|sorted| - 1];
      PlaceKeepsLast(front, f, key);
    }
  }

  /** Listing by cycle does not change which row of a key comes last. */
  lemma {:induction false} ListingKeepsLast(rows: seq<Finding>, key: Key)
    ensures LastWith(Listing(rows), key) == LastWith(rows, key)
  {
    if rows != [] {
      ListingKeepsLast(rows[..|rows| - 1], key);
      PlaceKeepsLast(Listing(rows[..|rows| - 1]), rows[|rows| - 1], key);
    }
  }

  lemma ReuseFromListing(rows: seq<Finding>, ds: seq<Draft>)
    ensures ReuseAll(Listing(rows), ds) == ReuseAll(rows, ds) && Carried(rows, ds) == Contents(ReuseAll(rows, ds))
  {
    forall i | 0 <= i < |ds| {
      ListingKeepsLast(rows, KeyOf(ds[i]));
    }
  }

  // ----------------------------------------------------------------------- the table

  /** A finding without its row id. */
  function Content(f: Finding): Finding {
    f.(id := None)
  }

  function Contents(rows: seq<Finding>): (r: seq<Finding>)
    ensures |r| == |rows| && forall i :: 0 <= i < |r| ==> r[i] == Content(rows[i])
  {
    seq(|rows|, i requires 0 <= i < |rows| => Content(rows[i]))
  }

  /** What evaluating the same drafts again makes of the rows, row ids aside. */
  function Carried(rows: seq<Finding>, ds: seq<Draft>): (r: seq<Finding>)
    ensures |r| == |ds| && forall i :: 0 <= i < |r| ==> r[i] == Content(Reuse(LastWith(rows, KeyOf(ds[i])), ds[i]))
  {
    Contents(ReuseAll(rows, ds))
  }

  /** What can happen to the findings of a run: evaluations, and reviews of the row at some place,
      each of which ends in an evaluation. */
  datatype Deed =
    | Evaluation(drafts: seq<Draft>)
    | Review(row: nat, human: Human, drafts: seq<Draft>)

  function Written(rows: seq<Finding>, deed: Deed): (r: seq<Finding>)
    ensures |r| == |rows| && forall i :: 0 <= i < |r| ==> r[i].draft == rows[i].draft
  {
    if deed.Review? && deed.row < |rows| then rows[deed.row := rows[deed.row].(human := deed.human)] else rows
  }

  /** The findings after a history of deeds, row ids aside. */
  function After(history: seq<Deed>): seq<Finding> {
    if history == [] then []
    else
      var deed := history[|history| - 1];
      Carried(Written(After(history[..|history| - 1]), deed), deed.drafts)
  }

  lemma {:induction false} LastOfContents(rows: seq<Finding>, key: Key)
    ensures var last := LastWith(rows, key);
      LastWith(Contents(rows), key) == if last.Some? then Some(Content(last.value)) else None
  {
    if rows != [] {
      LastOfContents(rows[..|rows| - 1], key);
      assert Contents(rows)[..|rows| - 1] == Contents(rows[..|rows| - 1]);
    }
  }

  /** One more deed, whatever row ids the table uses. */
  lemma OneMoreDeed(rows: seq<Finding>, history: seq<Deed>, deed: Deed)
    requires Contents(rows) == After(history)
    ensures Carried(Written(rows, deed), deed.drafts) == After(history + [deed])
  {
    assert (history + [deed])[..|history|] == history;
    assert Contents(Written(rows, deed)) == Written(After(history), deed);
    var ds := deed.drafts;
    forall i | 0 <= i < |ds| ensures Carried(Written(rows, deed), ds)[i] == After(history + [deed])[i] {
      LastOfContents(Written(rows, deed), KeyOf(ds[i]));
    }
  }

  class FindingTable {
    var rows: seq<Finding>
    var nextId: int
    ghost var history: seq<Deed>

    ghost predicate Valid()
      reads this
    {
      IdsAscend() && Contents(rows) == After(history)
    }

    ghost predicate IdsAscend()
      reads this
    {
      && (forall i :: 0 <= i < |rows| ==> rows[i].id.Some? && rows[i].id.value < nextId)
      && (forall i, j :: 0 <= i < j < |rows| ==> rows[i].id.value < rows[j].id.value)
    }

    constructor ()
      ensures Valid() && rows == [] && history == []
    {
      rows, nextId, history := [], 1, [];
    }

    /** Drops the old rows and inserts the new ones under fresh ids. */
    method ReplaceFairnessFindings(findings: seq<Finding>)
      requires IdsAscend()
      modifies this`rows, this`nextId
      ensures IdsAscend() && Contents(rows) == Contents(findings)
      ensures forall i :: 0 <= i < |rows| ==> rows[i].id.value >= old(nextId)
    {
      rows := [];
      for i := 0 to |findings|
        invariant IdsAscend() && |rows| == i && nextId >= old(nextId)
        invariant forall j :: 0 <= j < i ==> Content(rows[j]) == Content(findings[j]) && rows[j].id.value >= old(nextId)
      {
        rows := rows + [findings[i].(id := Some(nextId))];
        nextId := nextId + 1;
      }
    }

    /** Evaluates, after the given deed has been written to the rows as they were. */
    method Evaluate(r: Record, ghost was: seq<Finding>, ghost deed: Deed)
      requires IdsAscend() && deed.drafts == Drafts(r)
      requires Contents(was) == After(history) && rows == Written(was, deed)
      modifies this
      ensures Valid() && history == old(history) + [deed]
      ensures Contents(rows) == Carried(old(rows), Drafts(r)) && Evaluated(rows, Drafts(r))
    {
      hide Drafts, After, Written, Listing, ReuseAll, Evaluated, Carried, Contents, LastWith, Reuse, KeyOf;
      OneMoreDeed(was, history, deed);
      var findings := BuildFairnessFindings(r, Listing(rows));
      ReuseFromListing(rows, Drafts(r));
      ReplaceFairnessFindings(findings);
      history := history + [deed];
      EvaluationGivesEvaluated(old(rows), rows, Drafts(r));
    }

    method EvaluateRun(r: Record)
      requires Valid()
      modifies this
      ensures Valid() && history == old(history) + [Evaluation(Drafts(r))]
      ensures Contents(rows) == Carried(old(rows), Drafts(r)) && Evaluated(rows, Drafts(r))
    {
      hide Drafts, Carried, After, Evaluated;
      ghost var deed := Evaluation(Drafts(r));
      assert rows == Written(rows, deed);
      Evaluate(r, rows, deed);
    }

    /** Writes the human part of one row; the source raises when there is no such row. */
    method UpdateReview(id: int, human: Human) returns (found: bool, ghost place: nat)
      requires IdsAscend()
      modifies this`rows
      ensures IdsAscend()
      ensures found <==> exists i :: 0 <= i < |old(rows)| && old(rows)[i].id == Some(id)
      ensures !found ==> rows == old(rows)
      ensures found ==>
        && place < |old(rows)| && old(rows)[place].id == Some(id)
        && rows == old(rows)[place := old(rows)[place].(human := human)]
    {
      place := 0;
      for i := 0 to |rows|
        invariant forall j :: 0 <= j < i ==> rows[j].id != Some(id)
        invariant rows == old(rows)
      {
        if rows[i].id == Some(id) {
          rows := rows[i := rows[i].(human := human)];
          place := i;
          return true, place;
        }
      }
      found := false;
    }

    /** A review is written, then the run is evaluated again. */
    method ReviewFinding(id: int, human: Human, r: Record) returns (found: bool, ghost place: nat)
      requires Valid()
      modifies this
      ensures Valid()
      ensures found <==> exists i :: 0 <= i < |old(rows)| && old(rows)[i].id == Some(id)
      ensures !found ==> rows == old(rows) && history == old(history)
      ensures found ==>
        && place < |old(rows)| && old(rows)[place].id == Some(id)
        && history == old(history) + [Review(place, human, Drafts(r))]
        && Contents(rows) == Carried(old(rows)[place := old(rows)[place].(human := human)], Drafts(r))
        && Evaluated(rows, Drafts(r))
    {
      hide Drafts, Carried, After, Evaluated;
      found, place := UpdateReview(id, human);
      if found {
        ghost var deed := Review(place, human, Drafts(r));
        assert rows == Written(old(rows), deed);
        Evaluate(r, old(rows), deed);
      }
    }
  }

  // ------------------------------------------------------------- what reviews survive

  /** Rows left by an evaluation of these drafts, whatever was there before. */
  ghost predicate Evaluated(rows: seq<Finding>, ds: seq<Draft>) {
    && |rows| == |ds| && (forall i :: 0 <= i < |rows| ==> rows[i].draft == ds[i])
    && forall i, j :: 0 <= i < |rows| && 0 <= j < |rows| && KeyOf(ds[i]) == KeyOf(ds[j]) ==> rows[i].human == rows[j].human
  }

  lemma EvaluationGivesEvaluated(before: seq<Finding>, rows: seq<Finding>, ds: seq<Draft>)
    requires Contents(rows) == Carried(before, ds)
    ensures Evaluated(rows, ds)
  {
    forall i | 0 <= i < |rows|
      ensures rows[i].draft == ds[i] && rows[i].human == Reuse(LastWith(before, KeyOf(ds[i])), ds[i]).human
    {
      assert Contents(rows)[i] == Content(rows[i]);
    }
  }

  lemma {:induction false} LastWithIndex(rows: seq<Finding>, key: Key) returns (i: nat)
    requires exists f <- rows :: KeyOf(f.draft) == key
    ensures i < |rows| && LastWith(rows, key) == Some(rows[i]) && KeyOf(rows[i].draft) == key
    ensures forall j :: i < j < |rows| ==> KeyOf(rows[j].draft) != key
  {
    var n := |rows| - 1;
    assert rows == rows[..n] + [rows[n]];
    if KeyOf(rows[n].draft) == key {
      i := n;
    } else {
      i := LastWithIndex(rows[..n], key);
    }
  }

  /** Evaluating again changes nothing but row ids. */
  lemma ReevaluationIsIdempotent(rows: seq<Finding>, ds: seq<Draft>)
    requires Evaluated(rows, ds)
    ensures Carried(rows, ds) == Contents(rows)
  {
    forall i | 0 <= i < |ds| ensures Carried(rows, ds)[i] == Contents(rows)[i] {
      assert rows[i] in rows;
      var j := LastWithIndex(rows, KeyOf(ds[i]));
    }
  }

  /** No later finding has the same key. */
  ghost predicate LastOfItsKey(ds: seq<Draft>, i: nat)
    requires i < |ds|
  {
    forall j :: i < j < |ds| ==> KeyOf(ds[j]) != KeyOf(ds[i])
  }

  /** A review of finding i followed by the re-evaluation: if no later finding has its key, the
      review is kept (and shared by earlier findings with that key) and no other changes; if one
      has, everything is as before the review. */
  lemma ReviewThenEvaluate(rows: seq<Finding>, ds: seq<Draft>, i: nat, human: Human)
    requires Evaluated(rows, ds) && i < |ds|
    ensures var after := Carried(rows[i := rows[i].(human := human)], ds);
      if LastOfItsKey(ds, i) then
        forall k :: 0 <= k < |ds| ==>
          after[k] == Content(if KeyOf(ds[k]) == KeyOf(ds[i]) then rows[k].(human := human) else rows[k])
      else
        after == Contents(rows)
  {
    hide Carried, Evaluated;
    forall k | 0 <= k < |ds| {
      FindingAfterReview(rows, ds, i, human, k);
    }
    assert |rows| == |ds| by { SameLength(rows, ds); }
  }

  lemma SameLength(rows: seq<Finding>, ds: seq<Draft>)
    requires Evaluated(rows, ds)
    ensures |rows| == |ds|
  {
  }

  /** Where a carried review comes from: the last row with the key. */
  lemma CarriedFromLast(rows: seq<Finding>, ds: seq<Draft>, k: nat) returns (j: nat)
    requires |rows| == |ds| && k < |ds| && forall i :: 0 <= i < |ds| ==> rows[i].draft == ds[i]
    ensures k <= j < |ds| && KeyOf(ds[j]) == KeyOf(ds[k]) && LastOfItsKey(ds, j)
    ensures Carried(rows, ds)[k] == Finding(None, ds[k], rows[j].human)
  {
    assert rows[k] in rows;
    j := LastWithIndex(rows, KeyOf(ds[k]));
    forall m | j < m < |ds| ensures KeyOf(ds[m]) != KeyOf(ds[j]) {
      assert rows[m].draft == ds[m];
    }
  }

  lemma FindingAfterReview(rows: seq<Finding>, ds: seq<Draft>, i: nat, human: Human, k: nat)
    requires Evaluated(rows, ds) && i < |ds| && k < |ds|
    ensures Carried(rows[i := rows[i].(human := human)], ds)[k] ==
            Content(if LastOfItsKey(ds, i) && KeyOf(ds[k]) == KeyOf(ds[i]) then rows[k].(human := human) else rows[k])
  {
    var rows' := rows[i := rows[i].(human := human)];
    var j := CarriedFromLast(rows', ds, k);
    hide Carried, KeyOf;
    assert rows[j].human == rows[k].human;
    assert LastOfItsKey(ds, i) && KeyOf(ds[k]) == KeyOf(ds[i]) <==> j == i;
  }

  /** When exactly a human review survives: no later finding has the same key, or the review
      said nothing new. */
  lemma ReviewIsKeptIff(rows: seq<Finding>, ds: seq<Draft>, i: nat, human: Human)
    requires Evaluated(rows, ds) && i < |ds|
    ensures Carried(rows[i := rows[i].(human := human)], ds)[i].human == human <==>
              LastOfItsKey(ds, i) || rows[i].human == human
  {
    ReviewThenEvaluate(rows, ds, i, human);
  }

  /** With distinct keys every review is kept and stands alone. */
  lemma DistinctKeysKeepReviews(rows: seq<Finding>, ds: seq<Draft>, i: nat, human: Human)
    requires Evaluated(rows, ds) && i < |ds|
    requires forall j, k :: 0 <= j < k < |ds| ==> KeyOf(ds[j]) != KeyOf(ds[k])
    ensures var rows' := rows[i := rows[i].(human := human)];
      Carried(rows', ds) == Contents(rows') && Evaluated(rows', ds)
  {
    var rows' := rows[i := rows[i].(human := human)];
    assert Evaluated(rows', ds);
    ReevaluationIsIdempotent(rows', ds);
  }

  /** Reviews also survive new evidence: a finding that is drafted again keeps the last review
      of its key, whatever else has been drafted since. */
  lemma ReviewsOutliveNewDrafts(rows: seq<Finding>, ds: seq<Draft>, later: seq<Draft>, i: nat, k: nat)
    requires Evaluated(rows, ds) && i < |ds| && k < |later| && KeyOf(later[k]) == KeyOf(ds[i])
    ensures Carried(rows, later)[k].human == rows[i].human
  {
    assert rows[i] in rows;
    var j := LastWithIndex(rows, KeyOf(ds[i]));
  }

  // ------------------------------------------------------------------ over a history

  ghost predicate DistinctKeys(ds: seq<Draft>) {
    forall i, j :: 0 <= i < j < |ds| ==> KeyOf(ds[i]) != KeyOf(ds[j])
  }

  predicate Concerns(rows: seq<Finding>, deed: Deed, key: Key) {
    deed.Review? && deed.row < |rows| && KeyOf(rows[deed.row].draft) == key
  }

  /** What the last review of a key said, counting from when it was first drafted, or drafted anew
      after an evaluation without it; pending if there was none. */
  function LastReview(history: seq<Deed>, key: Key): Human {
    if history == [] then PENDING
    else
      var front, deed := history[..|history| - 1], history[|history| - 1];
      if forall d <- deed.drafts :: KeyOf(d) != key then PENDING
      else if Concerns(After(front), deed, key) then deed.human
      else LastReview(front, key)
  }

  function LatestDrafts(history: seq<Deed>): seq<Draft> {
    if history == [] then [] else history[|history| - 1].drafts
  }

  /** The table holds the latest drafts, each with its last review. */
  ghost predicate KeepsReviews(history: seq<Deed>) {
    var rows, ds := After(history), LatestDrafts(history);
    && |rows| == |ds|
    && forall i :: 0 <= i < |ds| ==> rows[i] == Finding(None, ds[i], LastReview(history, KeyOf(ds[i])))
  }

  /** Over any sequence of reviews and evaluations, as long as no evaluation drafts a key twice,
      each finding carries its last review. */
  lemma {:induction false} HistoryKeepsReviews(history: seq<Deed>)
    requires forall deed <- history :: DistinctKeys(deed.drafts)
    ensures KeepsReviews(history)
  {
    hide KeyOf, Carried;
    if history != [] {
      var front, deed := history[..|history| - 1], history[|history| - 1];
      HistoryKeepsReviews(front);
      assert front != [] ==> front[|front| - 1] in history;
      forall i | 0 <= i < |deed.drafts|
        ensures After(history)[i] == Finding(None, deed.drafts[i], LastReview(history, KeyOf(deed.drafts[i])))
      {
        FindingAfterDeed(front, deed, deed.drafts[i]);
      }
    }
  }

  lemma FindingAfterDeed(front: seq<Deed>, deed: Deed, d: Draft)
    requires KeepsReviews(front) && DistinctKeys(LatestDrafts(front)) && d in deed.drafts
    ensures var before := LastWith(Written(After(front), deed), KeyOf(d));
      Content(Reuse(before, d)) == Finding(None, d, LastReview(front + [deed], KeyOf(d)))
  {
    var key, rows := KeyOf(d), After(front);
    var rows' := Written(rows, deed);
    assert (front + [deed])[..|front|] == front;
    hide KeyOf, After;
    if exists f <- rows' :: KeyOf(f.draft) == key {
      var i := LastWithIndex(rows', key);
      assert Concerns(rows, deed, key) <==> deed.Review? && deed.row == i;
    } else {
      NeverReviewed(front, deed, key);
    }
  }

  lemma NeverReviewed(front: seq<Deed>, deed: Deed, key: Key)
    requires KeepsReviews(front) && forall f <- Written(After(front), deed) :: KeyOf(f.draft) != key
    ensures !Concerns(After(front), deed, key) && LastReview(front, key) == PENDING
  {
    var rows := After(front);
    var rows' := Written(rows, deed);
    hide KeyOf;
    forall i | 0 <= i < |rows| ensures KeyOf(rows[i].draft) != key {
      assert rows'[i] in rows';
    }
    forall e | e in LatestDrafts(front) ensures KeyOf(e) != key {
      var i :| 0 <= i < |rows| && LatestDrafts(front)[i] == e;
    }
  }

  // -------------------------------------------------------------------------- the score

  function Charge(f: Finding): int {
    if f.human.review == Cleared || !f.draft.suspicious then 0 else f.draft.penalty
  }

  function Charges(fs: seq<Finding>): int {
    if fs == [] then 0 else Charges(fs[..|fs| - 1]) + Charge(fs[|fs| - 1])
  }

  function Clamp(score: int): int {
    if score > 100 then 100 else if score < 0 then 0 else score
  }

  method ScoreFairness(fs: seq<Finding>) returns (score: int)
    ensures score == Clamp(100 - Charges(fs))
  {
    score := 100;
    for i := 0 to |fs|
      invariant score == 100 - Charges(fs[..i])
    {
      PrefixStep(fs, i);
      if fs[i].human.review == Cleared {
        continue;
      }
      if fs[i].draft.suspicious {
        score := score - fs[i].draft.penalty;
      }
    }
    assert fs[..|fs|] == fs;
    score := Clamp(score);
  }

  ghost predicate FairPenalties(ds: seq<Draft>) {
    forall d <- ds :: 0 <= d.penalty
  }

  lemma {:induction false} ChargesGrow(fs: seq<Finding>, gs: seq<Finding>)
    requires |fs| == |gs| && forall i :: 0 <= i < |fs| ==> Charge(fs[i]) <= Charge(gs[i])
    ensures Charges(fs) <= Charges(gs)
  {
    if fs != [] {
      ChargesGrow(fs[..|fs| - 1], gs[..|gs| - 1]);
    }
  }

  lemma {:induction false} NothingToCharge(fs: seq<Finding>)
    requires forall f <- fs :: 0 <= Charge(f)
    ensures 0 <= Charges(fs)
    ensures Charges(fs) == 0 <==> forall f <- fs :: Charge(f) == 0
  {
    if fs != [] {
      var front, last := fs[..|fs| - 1], fs[|fs| - 1];
      assert fs == front + [last];
      NothingToCharge(front);
    }
  }

  /** The score is 100 exactly when every finding that costs anything has been cleared. */
  lemma FullScoreIff(rows: seq<Finding>, ds: seq<Draft>)
    requires Evaluated(rows, ds) && FairPenalties(ds)
    ensures Clamp(100 - Charges(rows)) == 100 <==>
            forall f <- rows :: f.human.review == Cleared || !f.draft.suspicious || f.draft.penalty == 0
  {
    forall f | f in rows ensures 0 <= Charge(f) {
      var i :| 0 <= i < |rows| && rows[i] == f;
      assert ds[i] in ds;
    }
    NothingToCharge(rows);
  }

  /** Clearing a finding and evaluating again never lowers the score, whatever the keys are. */
  lemma ClearingNeverLowersScore(rows: seq<Finding>, ds: seq<Draft>, i: nat, human: Human)
    requires Evaluated(rows, ds) && FairPenalties(ds) && i < |ds| && human.review == Cleared
    ensures Clamp(100 - Charges(rows)) <= Clamp(100 - Charges(Carried(rows[i := rows[i].(human := human)], ds)))
  {
    hide *;
    SameLength(rows, ds);
    var after := Carried(rows[i := rows[i].(human := human)], ds);
    forall k | 0 <= k < |rows| ensures Charge(after[k]) <= Charge(rows[k]) {
      ClearingNeverCharges(rows, ds, i, human, k);
    }
    ChargesGrow(after, rows);
    ClampGrows(100 - Charges(rows), 100 - Charges(after));
  }

  lemma ClearingNeverCharges(rows: seq<Finding>, ds: seq<Draft>, i: nat, human: Human, k: nat)
    requires Evaluated(rows, ds) && FairPenalties(ds) && i < |ds| && k < |ds| && human.review == Cleared
    ensures Charge(Carried(rows[i := rows[i].(human := human)], ds)[k]) <= Charge(rows[k])
  {
    assert ds[k] in ds && rows[k].draft == ds[k];
    hide Carried, LastOfItsKey;
    FindingAfterReview(rows, ds, i, human, k);
  }

  lemma ClampGrows(a: int, b: int)
    requires a <= b
    ensures Clamp(a) <= Clamp(b)
  {
  }

  // ------------------------------------------------------------- what the drafts say

  lemma {:induction false} VerdictDraftListed(
      sc: Scenario, enemies: set<string>, picture: Picture, c: Coalition, cycle: int, vs: seq<Verdict>, d: Draft)
    ensures d in VerdictDrafts(sc, enemies, picture, c, cycle, vs) <==>
            exists v <- vs :: d in DraftsFor(sc, enemies, picture, c, cycle, v)
  {
    hide DraftsFor;
    if vs != [] {
      var front, last := vs[..|vs| - 1], vs[|vs| - 1];
      assert vs == front + [last];
      VerdictDraftListed(sc, enemies, picture, c, cycle, front, d);
    }
  }

  /** Batch b of the record gives rise to draft d. */
  ghost predicate GivesRise(r: Record, b: BatchRecord, d: Draft) {
    var picture := FindObservation(r.observations, b.coalition, b.cycle);
    && picture.Some?
    && exists v <- b.verdicts ::
         d in DraftsFor(r.scenario, EnemySectors(r.groups, b.coalition), picture.value, b.coalition, b.cycle, v)
  }

  lemma {:induction false} BatchDraftListed(r: Record, bs: seq<BatchRecord>, d: Draft)
    ensures d in BatchDrafts(r, bs) <==> exists b <- bs :: GivesRise(r, b, d)
  {
    hide DraftsFor, EnemySectors, FindObservation;
    if bs != [] {
      var front, b := bs[..|bs| - 1], bs[|bs| - 1];
      assert bs == front + [b];
      BatchDraftListed(r, front, d);
      var picture := FindObservation(r.observations, b.coalition, b.cycle);
      if picture.Some? {
        var found := VerdictDrafts(r.scenario, EnemySectors(r.groups, b.coalition), picture.value, b.coalition, b.cycle, b.verdicts);
        VerdictDraftListed(r.scenario, EnemySectors(r.groups, b.coalition), picture.value, b.coalition, b.cycle, b.verdicts, d);
        assert GivesRise(r, b, d) <==> d in found;
        assert BatchDrafts(r, bs) == BatchDrafts(r, front) + found;
      } else {
        assert BatchDrafts(r, bs) == BatchDrafts(r, front) + [];
      }
    }
  }

  lemma {:induction false} RepeatedDraftShape(t: Tally, order: seq<Coalition>, d: Draft)
    requires d in RepeatedDrafts(t, order)
    ensures exists c <- order :: CountOf(t, c) >= REPEATED && d == RepeatedDraft(c, CountOf(t, c))
  {
    hide RepeatedDraft;
    var front, c := order[..|order| - 1], order[|order| - 1];
    assert order == front + [c];
    if d in RepeatedDrafts(t, front) {
      RepeatedDraftShape(t, front, d);
    }
  }

  /** Every draft is a suspicion worth between 0 and 30 points. */
  lemma DraftsAreBounded(r: Record)
    ensures forall d <- Drafts(r) :: d.suspicious && 0 <= d.penalty <= 30
    ensures FairPenalties(Drafts(r))
  {
    hide Decimal, OnDoubtful, OnHidden, FromHidden, TargetSector, SourceSectorOf, TallyOf, EnemySectors, FindObservation,
      BatchDrafts, RepeatedDrafts;
    var tally := TallyOf(r, r.batches);
    forall d | d in Drafts(r) ensures d.suspicious && 0 <= d.penalty <= 30 {
      if d in BatchDrafts(r, r.batches) {
        BatchDraftListed(r, r.batches, d);
      } else if d in RepeatedDrafts(tally, tally.order) {
        RepeatedDraftShape(tally, tally.order, d);
      }
    }
  }

  /** A hidden-targeting finding says what it claims: some batch let an action through whose
      target sector held enemies while the commander's picture showed none there. */
  lemma HiddenTargetingMeans(r: Record, d: Draft)
    requires d.kind == "hidden_targeting"
    ensures d in Drafts(r) <==>
      exists b <- r.batches, v <- b.verdicts ::
        var picture := FindObservation(r.observations, b.coalition, b.cycle);
        && picture.Some? && OnHidden(r.scenario, EnemySectors(r.groups, b.coalition), picture.value, v)
        && d == HiddenDraft(b.coalition, b.cycle, v, TargetSector(r.scenario, v.params).value)
  {
    hide Decimal, OnDoubtful, OnHidden, FromHidden, TargetSector, SourceSectorOf, TallyOf, EnemySectors, FindObservation,
      BatchDrafts, RepeatedDrafts;
    var tally := TallyOf(r, r.batches);
    BatchDraftListed(r, r.batches, d);
    if d in RepeatedDrafts(tally, tally.order) {
      RepeatedDraftShape(tally, tally.order, d);
      assert false;
    }
  }
}
