/** Which recorded runs draft no key twice, and so lose no review. */
module ReviewKeys {
  import opened Domain
  import opened Working
  import opened Findings
  import opened Reviews
  import Runs

  // ----------------------------------------------------------- the results of a record

  /** One validated action as the record has it. */
  datatype Result = Result(coalition: Coalition, cycle: int, verdict: Verdict)

  function ResultsOf(b: BatchRecord, vs: seq<Verdict>): (r: seq<Result>)
    ensures |r| == |vs| && forall i :: 0 <= i < |r| ==> r[i] == Result(b.coalition, b.cycle, vs[i])
  {
    seq(|vs|, i requires 0 <= i < |vs| => Result(b.coalition, b.cycle, vs[i]))
  }

  /** All results of all batches, in order. */
  function Results(bs: seq<BatchRecord>): seq<Result> {
    if bs == [] then [] else Results(bs[..|bs| - 1]) + ResultsOf(bs[|bs| - 1], bs[|bs| - 1].verdicts)
  }

  /** What a finding about one action can be about. */
  datatype Suspicion = Doubtful | HiddenTarget | HiddenSource

  /** The sector for which a result is flagged, if it is. */
  function Flag(r: Record, e: Result, k: Suspicion): Option<string> {
    var picture, enemies := FindObservation(r.observations, e.coalition, e.cycle), EnemySectors(r.groups, e.coalition);
    if picture.None? then None
    else
      match k
      case Doubtful =>
        if OnDoubtful(r.scenario, picture.value, e.verdict) then TargetSector(r.scenario, e.verdict.params) else None
      case HiddenTarget =>
        if OnHidden(r.scenario, enemies, picture.value, e.verdict) then TargetSector(r.scenario, e.verdict.params) else None
      case HiddenSource =>
        if FromHidden(enemies, picture.value, e.verdict) then SourceSectorOf(e.verdict.params, picture.value) else None
  }

  function DraftOf(e: Result, k: Suspicion, sector: string): Draft {
    match k
    case Doubtful => StaleDraft(e.coalition, e.cycle, e.verdict, sector)
    case HiddenTarget => HiddenDraft(e.coalition, e.cycle, e.verdict, sector)
    case HiddenSource => AmbushDraft(e.coalition, e.cycle, e.verdict, sector)
  }

  function Flagged(r: Record, e: Result, k: Suspicion): seq<Draft> {
    if Flag(r, e, k).Some? then [DraftOf(e, k, Flag(r, e, k).value)] else []
  }

  function DraftsOf(r: Record, e: Result): seq<Draft> {
    Flagged(r, e, Doubtful) + Flagged(r, e, HiddenTarget) + Flagged(r, e, HiddenSource)
  }

  function AllDrafts(r: Record, es: seq<Result>): seq<Draft> {
    if es == [] then [] else AllDrafts(r, es[..|es| - 1]) + DraftsOf(r, es[|es| - 1])
  }

  lemma {:induction false} DraftsOfSum(r: Record, es: seq<Result>, fs: seq<Result>)
    ensures AllDrafts(r, es + fs) == AllDrafts(r, es) + AllDrafts(r, fs)
  {
    hide DraftsOf;
    if fs == [] {
      assert es + fs == es;
    } else {
      var m := |fs| - 1;
      assert (es + fs)[..|es| + m] == es + fs[..m];
      DraftsOfSum(r, es, fs[..m]);
    }
  }

  lemma DraftsOfResult(r: Record, b: BatchRecord, v: Verdict)
    ensures var picture := FindObservation(r.observations, b.coalition, b.cycle);
      DraftsOf(r, Result(b.coalition, b.cycle, v)) ==
      if picture.None? then []
      else DraftsFor(r.scenario, EnemySectors(r.groups, b.coalition), picture.value, b.coalition, b.cycle, v)
  {
    hide FindObservation, EnemySectors, TargetSector, SourceSectorOf, VisibleSectors, DoubtfulSectors, StaleDraft,
      HiddenDraft, AmbushDraft;
  }

  lemma {:induction false} DraftsOfVerdicts(r: Record, b: BatchRecord, vs: seq<Verdict>)
    ensures var picture := FindObservation(r.observations, b.coalition, b.cycle);
      AllDrafts(r, ResultsOf(b, vs)) ==
      if picture.None? then []
      else VerdictDrafts(r.scenario, EnemySectors(r.groups, b.coalition), picture.value, b.coalition, b.cycle, vs)
  {
    hide DraftsOf, DraftsFor, FindObservation, EnemySectors;
    if vs != [] {
      var m := |vs| - 1;
      DraftsOfVerdicts(r, b, vs[..m]);
      assert ResultsOf(b, vs)[..m] == ResultsOf(b, vs[..m]);
      DraftsOfResult(r, b, vs[m]);
    }
  }

  /** The drafts of the batches, result by result. */
  lemma {:induction false} DraftsOfBatches(r: Record, bs: seq<BatchRecord>)
    ensures BatchDrafts(r, bs) == AllDrafts(r, Results(bs))
  {
    hide VerdictDrafts, EnemySectors, FindObservation, DraftsOf;
    if bs != [] {
      var m := |bs| - 1;
      DraftsOfBatches(r, bs[..m]);
      DraftsOfVerdicts(r, bs[m], bs[m].verdicts);
      DraftsOfSum(r, Results(bs[..m]), ResultsOf(bs[m], bs[m].verdicts));
    }
  }

  // ------------------------------------------------------------------------ equal keys

  /** Free of the mark that ends an id within a finding's text. */
  predicate Plain(id: string) {
    '\'' !in id
  }

  lemma {:induction false} QuotedIdEnds(a: string, x: string, b: string, y: string)
    requires Plain(a) && Plain(b) && a + "'" + x == b + "'" + y
    ensures a == b && x == y
    decreases |a|
  {
    if a != "" && b != "" {
      assert (a + "'" + x)[1..] == a[1..] + "'" + x && (b + "'" + y)[1..] == b[1..] + "'" + y;
      QuotedIdEnds(a[1..], x, b[1..], y);
      assert a == [(a + "'" + x)[0]] + a[1..] && b == [(b + "'" + y)[0]] + b[1..];
    } else {
      EmptyIdEnds(a, x, b, y);
      assert ("" + "'" + x)[1..] == x && ("" + "'" + y)[1..] == y;
    }
  }

  lemma PlainStart(a: string, x: string)
    requires Plain(a) && a != ""
    ensures (a + "'" + x)[0] != '\''
  {
    assert (a + "'" + x)[0] == a[0] && a[0] in a;
  }

  lemma EmptyIdEnds(a: string, x: string, b: string, y: string)
    requires Plain(a) && Plain(b) && a + "'" + x == b + "'" + y && (a == "" || b == "")
    ensures a == b == ""
  {
    assert a == "" ==> (a + "'" + x)[0] == '\'';
    assert b == "" ==> (b + "'" + y)[0] == '\'';
    hide Plain;
    if a != "" {
      PlainStart(a, x);
    }
    if b != "" {
      PlainStart(b, y);
    }
  }

  /** What stands between the id and the sector in a finding's text. */
  function Middle(k: Suspicion): string {
    match k
    case Doubtful => "' targeted stale low-confidence sector '"
    case HiddenTarget => "' reacted to hidden enemy presence in sector '"
    case HiddenSource => "' withdrew from hidden-threat sector '"
  }

  lemma MiddleStarts(k: Suspicion)
    ensures Middle(k) != "" && Middle(k)[0] == '\''
  {
    assert "' targeted stale low-confidence sector '"[0] == '\'';
    assert "' reacted to hidden enemy presence in sector '"[0] == '\'';
    assert "' withdrew from hidden-threat sector '"[0] == '\'';
  }

  lemma TextOf(e: Result, k: Suspicion, s: string)
    ensures DraftOf(e, k, s).detail == "Action '" + e.verdict.actionId + Middle(k) + s + "'."
  {
  }

  lemma MiddleIsEqual(head: string, s: string, t: string, tail: string)
    requires head + s + tail == head + t + tail
    ensures s == t
  {
    assert (head + s + tail)[|head|..] == s + tail && (head + t + tail)[|head|..] == t + tail;
    assert |s| == |t|;
    assert (s + tail)[..|s|] == s && (t + tail)[..|t|] == t;
  }

  lemma SameText(head: string, a: string, b: string, middle: string, s: string, t: string, tail: string)
    requires Plain(a) && Plain(b) && middle != "" && middle[0] == '\''
    requires head + a + middle + s + tail == head + b + middle + t + tail
    ensures a == b && s == t
  {
    var rest := middle[1..];
    assert middle == "'" + rest;
    assert (head + a + middle + s + tail)[|head|..] == a + "'" + (rest + s + tail);
    assert (head + b + middle + t + tail)[|head|..] == b + "'" + (rest + t + tail);
    QuotedIdEnds(a, rest + s + tail, b, rest + t + tail);
    MiddleIsEqual(rest, s, t, tail);
  }

  /** Without quotes in ids, equal keys mean the same finding about the same action. */
  lemma KeysEqualIff(e: Result, k: Suspicion, s: string, f: Result, l: Suspicion, t: string)
    requires Plain(e.verdict.actionId) && Plain(f.verdict.actionId)
    ensures KeyOf(DraftOf(e, k, s)) == KeyOf(DraftOf(f, l, t)) <==>
              e.coalition == f.coalition && e.cycle == f.cycle && e.verdict.actionId == f.verdict.actionId && k == l && s == t
  {
    KindTells(e, k, s, f, l, t);
    TextOf(e, k, s);
    TextOf(f, l, t);
    MiddleStarts(k);
    hide DraftOf, Middle, Plain;
    if KeyOf(DraftOf(e, k, s)) == KeyOf(DraftOf(f, l, t)) {
      SameText("Action '", e.verdict.actionId, f.verdict.actionId, Middle(k), s, t, "'.");
    }
  }

  /** The proviso on quotes is needed: here two different actions and sectors make the same text. */
  lemma QuotesCanMerge(e: Result, f: Result)
    requires e.coalition == f.coalition && e.cycle == f.cycle
    requires e.verdict.actionId == "x" && f.verdict.actionId == "x" + Middle(Doubtful) + "y"
    ensures KeyOf(DraftOf(e, Doubtful, "y" + Middle(Doubtful) + "z")) == KeyOf(DraftOf(f, Doubtful, "z"))
  {
    TextOf(e, Doubtful, "y" + Middle(Doubtful) + "z");
    TextOf(f, Doubtful, "z");
    KindTells(e, Doubtful, "y" + Middle(Doubtful) + "z", f, Doubtful, "z");
    hide DraftOf, Middle;
    var m := Middle(Doubtful);
    assert "Action '" + "x" + m + ("y" + m + "z") + "'." == "Action '" + ("x" + m + "y") + m + "z" + "'.";
  }

  lemma KindTells(e: Result, k: Suspicion, s: string, f: Result, l: Suspicion, t: string)
    ensures DraftOf(e, k, s).kind == DraftOf(f, l, t).kind <==> k == l
    ensures DraftOf(e, k, s).coalition == Some(e.coalition) && DraftOf(e, k, s).cycle == Some(e.cycle)
    ensures DraftOf(f, l, t).coalition == Some(f.coalition) && DraftOf(f, l, t).cycle == Some(f.cycle)
  {
    assert |"stale_precision"| == 15 && |"hidden_targeting"| == 16 && |"preemptive_ambush_avoidance"| == 27;
  }

  // ------------------------------------------------------------------ distinct over a record

  /** The same finding would be drafted for both results. */
  predicate Repeats(r: Record, e: Result, f: Result) {
    && e.coalition == f.coalition && e.cycle == f.cycle && e.verdict.actionId == f.verdict.actionId
    && exists k :: Flag(r, e, k).Some? && Flag(r, e, k) == Flag(r, f, k)
  }

  predicate NoRepeats(r: Record, es: seq<Result>) {
    forall i, j :: 0 <= i < j < |es| ==> !Repeats(r, es[i], es[j])
  }

  predicate AllPlain(es: seq<Result>) {
    forall e <- es :: Plain(e.verdict.actionId)
  }

  ghost predicate SharesKey(ds: seq<Draft>, gs: seq<Draft>) {
    exists d <- ds, g <- gs :: KeyOf(d) == KeyOf(g)
  }

  lemma DistinctSum(ds: seq<Draft>, gs: seq<Draft>)
    ensures DistinctKeys(ds + gs) <==> DistinctKeys(ds) && DistinctKeys(gs) && !SharesKey(ds, gs)
  {
    hide KeyOf;
    var all := ds + gs;
    if DistinctKeys(all) {
      forall i, j | 0 <= i < j < |ds| ensures KeyOf(ds[i]) != KeyOf(ds[j]) {
        assert all[i] == ds[i] && all[j] == ds[j];
      }
      forall i, j | 0 <= i < j < |gs| ensures KeyOf(gs[i]) != KeyOf(gs[j]) {
        assert all[|ds| + i] == gs[i] && all[|ds| + j] == gs[j];
      }
      forall d, g | d in ds && g in gs ensures KeyOf(d) != KeyOf(g) {
        var i :| 0 <= i < |ds| && ds[i] == d;
        var j :| 0 <= j < |gs| && gs[j] == g;
        assert all[i] == d && all[|ds| + j] == g;
      }
    } else {
      var i, j :| 0 <= i < j < |all| && KeyOf(all[i]) == KeyOf(all[j]);
      assert i < |ds| <= j ==> all[i] in ds && all[j] in gs;
      assert i >= |ds| ==> all[i] == gs[i - |ds|] && all[j] == gs[j - |ds|];
    }
  }

  lemma OneResultKeys(r: Record, e: Result)
    ensures DistinctKeys(DraftsOf(r, e))
    ensures forall d :: d in DraftsOf(r, e) <==> exists k :: Flag(r, e, k).Some? && d == DraftOf(e, k, Flag(r, e, k).value)
  {
    hide Flag;
    forall k, l | Flag(r, e, k).Some? && Flag(r, e, l).Some? && k != l
      ensures KeyOf(DraftOf(e, k, Flag(r, e, k).value)) != KeyOf(DraftOf(e, l, Flag(r, e, l).value))
    {
      KindTells(e, k, Flag(r, e, k).value, e, l, Flag(r, e, l).value);
    }
    hide DraftOf, KeyOf;
    var ds := DraftsOf(r, e);
    forall d ensures d in ds <==> exists k :: Flag(r, e, k).Some? && d == DraftOf(e, k, Flag(r, e, k).value) {
      assert d in ds <==> d in Flagged(r, e, Doubtful) || d in Flagged(r, e, HiddenTarget) || d in Flagged(r, e, HiddenSource);
    }
  }

  lemma RepeatsShare(r: Record, e: Result, f: Result)
    requires Repeats(r, e, f)
    ensures SharesKey(DraftsOf(r, e), DraftsOf(r, f))
  {
    OneResultKeys(r, e);
    OneResultKeys(r, f);
    var k :| Flag(r, e, k).Some? && Flag(r, e, k) == Flag(r, f, k);
    SameKey(e, f, k, Flag(r, e, k).value);
    hide Flag, DraftOf, DraftsOf, KeyOf;
    assert DraftOf(e, k, Flag(r, e, k).value) in DraftsOf(r, e) && DraftOf(f, k, Flag(r, f, k).value) in DraftsOf(r, f);
  }

  lemma SameKey(e: Result, f: Result, k: Suspicion, s: string)
    requires e.coalition == f.coalition && e.cycle == f.cycle && e.verdict.actionId == f.verdict.actionId
    ensures KeyOf(DraftOf(e, k, s)) == KeyOf(DraftOf(f, k, s))
  {
  }

  lemma ShareMeansRepeats(r: Record, e: Result, f: Result)
    requires Plain(e.verdict.actionId) && Plain(f.verdict.actionId)
    requires SharesKey(DraftsOf(r, e), DraftsOf(r, f))
    ensures Repeats(r, e, f)
  {
    OneResultKeys(r, e);
    OneResultKeys(r, f);
    hide Flag, DraftOf, DraftsOf, KeyOf, Plain;
    var d, g :| d in DraftsOf(r, e) && g in DraftsOf(r, f) && KeyOf(d) == KeyOf(g);
    var k :| Flag(r, e, k).Some? && d == DraftOf(e, k, Flag(r, e, k).value);
    var l :| Flag(r, f, l).Some? && g == DraftOf(f, l, Flag(r, f, l).value);
    KeysEqualIff(e, k, Flag(r, e, k).value, f, l, Flag(r, f, l).value);
  }

  lemma {:induction false} ShareWithAny(r: Record, es: seq<Result>, gs: seq<Draft>)
    ensures SharesKey(AllDrafts(r, es), gs) <==> exists e <- es :: SharesKey(DraftsOf(r, e), gs)
  {
    hide DraftsOf, KeyOf;
    if es != [] {
      var front, last := es[..|es| - 1], es[|es| - 1];
      assert es == front + [last];
      ShareWithAny(r, front, gs);
      assert AllDrafts(r, es) == AllDrafts(r, front) + DraftsOf(r, last);
    }
  }

  lemma {:induction false} ResultsDistinctIff(r: Record, es: seq<Result>)
    ensures DistinctKeys(AllDrafts(r, es)) ==> NoRepeats(r, es)
    ensures AllPlain(es) && NoRepeats(r, es) ==> DistinctKeys(AllDrafts(r, es))
  {
    hide DraftsOf, KeyOf, Repeats, Plain;
    if es != [] {
      var front, last := es[..|es| - 1], es[|es| - 1];
      assert es == front + [last];
      ResultsDistinctIff(r, front);
      OneResultKeys(r, last);
      DistinctSum(AllDrafts(r, front), DraftsOf(r, last));
      ShareWithAny(r, front, DraftsOf(r, last));
      forall e | e in front
        ensures Repeats(r, e, last) ==> SharesKey(DraftsOf(r, e), DraftsOf(r, last))
        ensures AllPlain(es) && SharesKey(DraftsOf(r, e), DraftsOf(r, last)) ==> Repeats(r, e, last)
      {
        if Repeats(r, e, last) {
          RepeatsShare(r, e, last);
        } else if AllPlain(es) && SharesKey(DraftsOf(r, e), DraftsOf(r, last)) {
          ShareMeansRepeats(r, e, last);
        }
      }
      NoRepeatsStep(r, front, last);
    }
  }

  lemma NoRepeatsStep(r: Record, es: seq<Result>, e: Result)
    ensures NoRepeats(r, es + [e]) <==> NoRepeats(r, es) && forall f <- es :: !Repeats(r, f, e)
  {
    hide Repeats;
    var all := es + [e];
    if NoRepeats(r, all) {
      forall i, j | 0 <= i < j < |es| ensures !Repeats(r, es[i], es[j]) {
        assert all[i] == es[i] && all[j] == es[j];
      }
      forall f | f in es ensures !Repeats(r, f, e) {
        var i :| 0 <= i < |es| && es[i] == f;
        assert all[i] == f && all[|es|] == e;
      }
    }
  }

  // ----------------------------------------------------------------------- the whole record

  /** The tally names no coalition twice. */
  lemma {:induction false} TallyIsDistinct(r: Record, bs: seq<BatchRecord>)
    ensures var t := TallyOf(r, bs);
      Distinct(t.order) && forall c :: c in t.order <==> c in t.counts
  {
    hide Reactions, FindObservation;
    if bs != [] {
      TallyIsDistinct(r, bs[..|bs| - 1]);
    }
  }

  lemma {:induction false} TallyDraftsDistinct(t: Tally, order: seq<Coalition>)
    requires Distinct(order)
    ensures DistinctKeys(RepeatedDrafts(t, order))
  {
    hide RepeatedDraft;
    if order != [] {
      var front, c := order[..|order| - 1], order[|order| - 1];
      TallyDraftsDistinct(t, front);
      var ds := RepeatedDrafts(t, front);
      DistinctSum(ds, [RepeatedDraft(c, CountOf(t, c))]);
      forall d | d in ds ensures KeyOf(d) != KeyOf(RepeatedDraft(c, CountOf(t, c))) {
        RepeatedDraftShape(t, front, d);
        var e :| e in front && d == RepeatedDraft(e, CountOf(t, e));
        RepeatedCoalition(e, CountOf(t, e));
        RepeatedCoalition(c, CountOf(t, c));
      }
      hide KeyOf, CountOf;
      assert RepeatedDrafts(t, order) == ds || RepeatedDrafts(t, order) == ds + [RepeatedDraft(c, CountOf(t, c))];
    }
  }

  lemma RepeatedCoalition(c: Coalition, count: nat)
    ensures RepeatedDraft(c, count).coalition == Some(c) && RepeatedDraft(c, count).cycle == None
  {
    hide Decimal;
  }

  lemma {:induction false} ResultDraftsHaveCycles(r: Record, es: seq<Result>)
    ensures forall d <- AllDrafts(r, es) :: d.cycle.Some?
  {
    hide Flag, DraftOf;
    if es != [] {
      ResultDraftsHaveCycles(r, es[..|es| - 1]);
      forall k: Suspicion, s: string, e: Result ensures DraftOf(e, k, s).cycle.Some? {
        KindTells(e, k, s, e, k, s);
      }
    }
  }

  lemma TallyDraftsHaveNone(t: Tally, order: seq<Coalition>)
    ensures forall d <- RepeatedDrafts(t, order) :: d.cycle.None?
  {
    forall d | d in RepeatedDrafts(t, order) ensures d.cycle.None? {
      RepeatedDraftShape(t, order, d);
    }
  }

  /** When exactly an evaluation drafts every key once: no finding would be drafted for two results of
      the same coalition, cycle and action id.  Only the converse needs ids without quotes. */
  lemma DistinctKeysIff(r: Record)
    ensures DistinctKeys(Drafts(r)) ==> NoRepeats(r, Results(r.batches))
    ensures AllPlain(Results(r.batches)) ==> (DistinctKeys(Drafts(r)) <==> NoRepeats(r, Results(r.batches)))
  {
    var es, t := Results(r.batches), TallyOf(r, r.batches);
    DraftsOfBatches(r, r.batches);
    ResultsDistinctIff(r, es);
    TallyIsDistinct(r, r.batches);
    TallyDraftsDistinct(t, t.order);
    ResultDraftsHaveCycles(r, es);
    TallyDraftsHaveNone(t, t.order);
    DistinctSum(BatchDrafts(r, r.batches), RepeatedDrafts(t, t.order));
    hide BatchDrafts, RepeatedDrafts, TallyOf, Results, NoRepeats, AllDrafts, AllPlain;
    var found := BatchDrafts(r, r.batches) + RepeatedDrafts(t, t.order);
    assert found == [] ==> BatchDrafts(r, r.batches) == [];
  }

  // --------------------------------------------------------------- what a record can promise

  /** Each coalition has at most one batch in a cycle, and no batch repeats an action id. */
  ghost predicate OneBatchEach(bs: seq<BatchRecord>) {
    && (forall b <- bs :: Runs.Storable(b.verdicts))
    && forall i, j :: 0 <= i < j < |bs| ==> bs[i].coalition != bs[j].coalition || bs[i].cycle != bs[j].cycle
  }

  lemma {:induction false} ResultListed(bs: seq<BatchRecord>, e: Result)
    requires e in Results(bs)
    ensures exists b <- bs :: b.coalition == e.coalition && b.cycle == e.cycle
  {
    var front, b := bs[..|bs| - 1], bs[|bs| - 1];
    assert bs == front + [b];
    if e in Results(front) {
      ResultListed(front, e);
    }
  }

  lemma {:induction false} OneBatchEachRepeatsNothing(r: Record, bs: seq<BatchRecord>)
    requires OneBatchEach(bs)
    ensures NoRepeats(r, Results(bs))
  {
    hide Flag;
    if bs != [] {
      var front, b := bs[..|bs| - 1], bs[|bs| - 1];
      assert bs == front + [b];
      OneBatchEachRepeatsNothing(r, front);
      var es, fs := Results(front), ResultsOf(b, b.verdicts);
      forall i, j | 0 <= i < j < |es + fs| ensures !Repeats(r, (es + fs)[i], (es + fs)[j]) {
        if j >= |es| {
          var f := fs[j - |es|];
          if i < |es| {
            ResultListed(front, es[i]);
            var m :| 0 <= m < |front| && front[m].coalition == es[i].coalition && front[m].cycle == es[i].cycle;
            assert bs[m] == front[m];
          } else {
            DistinctIds(b.verdicts, i - |es|, j - |es|);
          }
        }
      }
    }
  }

  lemma DistinctIds(vs: seq<Verdict>, i: nat, j: nat)
    requires Runs.Storable(vs) && i < j < |vs|
    ensures vs[i].actionId != vs[j].actionId
  {
    assert Runs.ActionIds(vs)[i] != Runs.ActionIds(vs)[j];
  }

  /** A record as the live loop leaves it, with at most one batch for a coalition and cycle, drafts no
      key twice. */
  lemma OneBatchEachKeepsKeys(r: Record)
    requires OneBatchEach(r.batches) && AllPlain(Results(r.batches))
    ensures DistinctKeys(Drafts(r))
  {
    OneBatchEachRepeatsNothing(r, r.batches);
    DistinctKeysIff(r);
    hide Drafts, DistinctKeys, NoRepeats, Results, AllPlain, OneBatchEach;
  }

  /** Over any sequence of reviews and evaluations of such records, each finding carries its last review. */
  lemma RecordsKeepReviews(history: seq<Deed>, records: seq<Record>)
    requires |history| == |records| && forall i :: 0 <= i < |history| ==> history[i].drafts == Drafts(records[i])
    requires forall r <- records :: AllPlain(Results(r.batches)) && NoRepeats(r, Results(r.batches))
    ensures KeepsReviews(history)
  {
    hide Drafts, DistinctKeys, NoRepeats, Results, AllPlain, KeepsReviews;
    forall deed | deed in history ensures DistinctKeys(deed.drafts) {
      var i :| 0 <= i < |history| && history[i] == deed;
      assert records[i] in records;
      DistinctKeysIff(records[i]);
    }
    HistoryKeepsReviews(history);
  }

  // -------------------------------------------------------------------- a batch stored twice

  /** A batch that was stored twice in one cycle, as validating a payload again stores it: whatever is said
      about the first finding is gone at once, and the evaluation after it shows nothing of it. */
  lemma EarlierReviewIsLost(r: Record, b: BatchRecord, rows: seq<Finding>, human: Human)
    requires r.batches == [b, b] && BatchDrafts(r, [b]) != [] && Evaluated(rows, Drafts(r))
    ensures !DistinctKeys(Drafts(r)) && |rows| > 1
    ensures Carried(rows[0 := rows[0].(human := human)], Drafts(r)) == Contents(rows)
  {
    hide VerdictDrafts, FindObservation, EnemySectors, KeyOf, TallyOf, RepeatedDrafts, Carried;
    var once, ds := BatchDrafts(r, [b]), Drafts(r);
    assert [b, b][..1] == [b] && [b][..0] == [];
    assert BatchDrafts(r, [b, b]) == once + once;
    assert ds[0] == once[0] == ds[|once|];
    SameLength(rows, ds);
    hide Drafts, BatchDrafts;
    assert !LastOfItsKey(ds, 0);
    ReviewThenEvaluate(rows, ds, 0, human);
  }
}
