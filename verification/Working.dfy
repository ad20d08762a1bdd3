/** The mutable result a validation run works on, and the driver that takes one raw action
    through the stages. */
module Working {
  import opened Domain
  import opened Requests
  import opened Validation

  /** The frozen form of a working result.  `params` is None until the schema stage fills it. */
  datatype Verdict = Verdict(
    actionId: string, actionType: Option<ActionType>, status: ValidationStatus,
    code: Option<RejectionCode>, params: Option<Params>, warnings: seq<string>, stages: seq<string>)

  function StageName(stage: Stage): string {
    match stage
    case CoalitionStage => "coalition"
    case ScenarioStage => "scenario"
    case ResourceStage => "resource"
    case ReadinessStage => "execution_readiness"
  }

  const DUPLICATES_WARNING := "duplicate_group_ids_normalized"

  class WorkingResult {
    const actionId: string
    var actionType: Option<ActionType>
    var status: ValidationStatus
    var code: Option<RejectionCode>
    var params: Option<Params>
    var warnings: seq<string>
    var stages: seq<string>

    function View(): Verdict
      reads this
    {
      Verdict(actionId, actionType, status, code, params, warnings, stages)
    }

    constructor (actionId: string)
      ensures View() == Verdict(actionId, None, Rejected, None, None, [], [])
    {
      this.actionId := actionId;
      actionType, status, code, params, warnings, stages := None, Rejected, None, None, [], [];
    }

    method Reject(rejection: RejectionCode)
      modifies this
      ensures View() == old(View()).(status := Rejected, code := Some(rejection))
    {
      status := Rejected;
      code := Some(rejection);
    }

    /** The parse and schema stage. */
    method Parse(raw: RawAction, c: Coalition)
      requires View() == Verdict(ReadActionId(raw), None, Rejected, None, None, [], [])
      modifies this
      ensures View() == ParsedVerdict(raw, c)
    {
      hide ParseRequest, ReadActionId, TypeOf;
      match ParseRequest(raw, c)
      case Refused(known, rejection) =>
        actionType := known;
        Reject(rejection);
      case Parsed(p, duplicates) =>
        params := Some(p);
        if duplicates {
          status := PartiallyAccepted;
          warnings := warnings + [DUPLICATES_WARNING];
        }
        if status == Rejected {
          status := Accepted;
        }
        stages := stages + ["schema"];
        actionType := Some(TypeOf(p));
    }

    /** One state-dependent stage: reject with its code, or record that it was passed. */
    method RunStage(stage: Stage, sc: Scenario, ctx: Context)
      requires params.Some?
      modifies this
      ensures View() == AfterStage(old(View()), stage, sc, ctx)
    {
      var abort := StageAbort(stage, sc, ctx, params.value);
      if abort.Some? {
        Reject(abort.value);
      } else {
        stages := stages + [StageName(stage)];
      }
    }
  }

  function ParsedVerdict(raw: RawAction, c: Coalition): Verdict {
    match ParseRequest(raw, c)
    case Refused(known, rejection) => Verdict(ReadActionId(raw), known, Rejected, Some(rejection), None, [], [])
    case Parsed(p, duplicates) =>
      Verdict(ReadActionId(raw), Some(TypeOf(p)), if duplicates then PartiallyAccepted else Accepted,
              None, Some(p), if duplicates then [DUPLICATES_WARNING] else [], ["schema"])
  }

  function AfterStage(v: Verdict, stage: Stage, sc: Scenario, ctx: Context): Verdict
    requires v.params.Some?
  {
    var abort := StageAbort(stage, sc, ctx, v.params.value);
    if abort.Some? then v.(status := Rejected, code := abort) else v.(stages := v.stages + [StageName(stage)])
  }

  /** The first n stages, stopping at a rejection. */
  function AfterStages(v: Verdict, n: nat, sc: Scenario, ctx: Context): (r: Verdict)
    requires v.params.Some? && n <= |STAGES|
    ensures r.params == v.params && r.actionType == v.actionType && r.actionId == v.actionId && r.warnings == v.warnings
  {
    if n == 0 then v
    else
      var before := AfterStages(v, n - 1, sc, ctx);
      if before.status == Rejected then before else AfterStage(before, STAGES[n - 1], sc, ctx)
  }

  /** The verdict on one raw action before conflicts are looked at. */
  function Validated(raw: RawAction, sc: Scenario, ctx: Context): Verdict {
    var parsed := ParsedVerdict(raw, ctx.coalition);
    if parsed.params.None? then parsed else AfterStages(parsed, |STAGES|, sc, ctx)
  }

  method ValidateOne(raw: RawAction, sc: Scenario, ctx: Context) returns (working: WorkingResult)
    ensures fresh(working) && working.View() == Validated(raw, sc, ctx)
  {
    hide ParseRequest, StageAbort;
    working := new WorkingResult(ReadActionId(raw));
    working.Parse(raw, ctx.coalition);
    if working.params.None? {
      return;
    }
    ghost var parsed := working.View();
    var n := 0;
    while n < |STAGES| && working.status != Rejected
      invariant n <= |STAGES|
      invariant working.View() == AfterStages(parsed, n, sc, ctx)
    {
      working.RunStage(STAGES[n], sc, ctx);
      n := n + 1;
    }
    RejectionIsFinal(parsed, n, sc, ctx);
    // The source promotes an accepted result with warnings once more here; the schema stage
    // has already done it, so that branch is dead.
    assert working.status == Accepted ==> working.warnings == [];
  }

  lemma {:induction false} RejectionIsFinal(v: Verdict, n: nat, sc: Scenario, ctx: Context)
    requires v.params.Some? && n <= |STAGES|
    ensures AfterStages(v, n, sc, ctx).status == Rejected ==>
              AfterStages(v, |STAGES|, sc, ctx) == AfterStages(v, n, sc, ctx)
    ensures AfterStages(v, n, sc, ctx).status in {v.status, Rejected}
    decreases |STAGES| - n
  {
    if n < |STAGES| {
      RejectionIsFinal(v, n + 1, sc, ctx);
    }
    StatusKeptOrRejected(v, n, sc, ctx);
  }

  lemma {:induction false} StatusKeptOrRejected(v: Verdict, n: nat, sc: Scenario, ctx: Context)
    requires v.params.Some? && n <= |STAGES|
    ensures AfterStages(v, n, sc, ctx).status in {v.status, Rejected}
  {
    if n > 0 {
      StatusKeptOrRejected(v, n - 1, sc, ctx);
    }
  }

  const STAGE_NAMES := ["schema", "coalition", "scenario", "resource", "execution_readiness"]

  /** Stage by stage: either everything so far passed, or the first objection decided. */
  lemma {:induction false} StagesSoFar(v: Verdict, n: nat, sc: Scenario, ctx: Context)
    requires v.params.Some? && v.status != Rejected && v.code == None && v.stages == ["schema"] && n <= |STAGES|
    ensures var r := AfterStages(v, n, sc, ctx);
      if r.status != Rejected then
        r == v.(stages := STAGE_NAMES[..n + 1])
        && forall k :: 0 <= k < n ==> StageAbort(STAGES[k], sc, ctx, v.params.value).None?
      else
        exists k :: 0 <= k < n && r.stages == STAGE_NAMES[..k + 1]
          && r.code.Some? && r.code == StageAbort(STAGES[k], sc, ctx, v.params.value)
  {
    if n > 0 {
      StagesSoFar(v, n - 1, sc, ctx);
      var before := AfterStages(v, n - 1, sc, ctx);
      if before.status != Rejected {
        assert STAGE_NAMES[..n + 1] == STAGE_NAMES[..n] + [STAGE_NAMES[n]];
        assert StageName(STAGES[n - 1]) == STAGE_NAMES[n];
      }
    }
  }

  /** The stages let through exactly the legal actions, and say how far the others got. */
  lemma StagesDecide(v: Verdict, p: Params, sc: Scenario, ctx: Context)
    requires v.params == Some(p) && v.status != Rejected && v.code == None && v.stages == ["schema"]
    ensures var r := AfterStages(v, |STAGES|, sc, ctx);
      && (r.status != Rejected <==> Legal(sc, ctx, p))
      && (r.status != Rejected ==> r == v.(stages := STAGE_NAMES))
      && (r.status == Rejected ==> r.code.Some? && r.stages < STAGE_NAMES)
  {
    hide Legal, EntityAbort, FirstGroupAbort;
    StagesSoFar(v, |STAGES|, sc, ctx);
    PassesIffLegal(sc, ctx, p);
    hide AfterStages, StageAbort;
    assert STAGES[0] == CoalitionStage && STAGES[1] == ScenarioStage;
    assert STAGES[2] == ResourceStage && STAGES[3] == ReadinessStage;
    var passed := AfterStages(v, |STAGES|, sc, ctx).status != Rejected;
    forall stage: Stage ensures passed ==> StageAbort(stage, sc, ctx, p).None? {
      match stage
      case CoalitionStage =>
      case ScenarioStage =>
      case ResourceStage =>
      case ReadinessStage =>
    }
    assert STAGE_NAMES[..5] == STAGE_NAMES;
  }

  /** What a verdict means: an action is let through exactly when it parses and is legal; it
      carries a code exactly when it is rejected, and the passed stages are always a prefix
      of the pipeline, complete exactly when nothing objected. */
  lemma VerdictMeaning(raw: RawAction, sc: Scenario, ctx: Context)
    ensures var v := Validated(raw, sc, ctx);
      var outcome := ParseRequest(raw, ctx.coalition);
      && (v.status != Rejected <==> outcome.Parsed? && Legal(sc, ctx, outcome.params))
      && (v.status == PartiallyAccepted <==> v.status != Rejected && outcome.duplicatesRemoved)
      && (v.code.Some? <==> v.status == Rejected)
      && v.stages <= STAGE_NAMES
      && (v.stages == STAGE_NAMES <==> v.status != Rejected)
      && v.params == (if outcome.Parsed? then Some(outcome.params) else None)
  {
    hide ParseRequest, Legal, AfterStages;
    match ParseRequest(raw, ctx.coalition)
    case Parsed(p, _) => StagesDecide(ParsedVerdict(raw, ctx.coalition), p, sc, ctx);
    case Refused(_, _) =>
  }
}
