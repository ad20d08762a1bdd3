/** Payloads as a model writes them, and what a turn of one action does. */
module Payloads {
  import opened Domain
  import opened Requests
  import opened Validation
  import opened Working
  import opened Conflicts
  import opened StateStore
  import opened Planning
  import opened Engine
  import opened Orders
  import opened Atoms
  import opened Batches
  import opened Runs

  lemma StartsFilled(s: string)
    requires s != "" && !IsSpace(s[0])
    ensures !IsBlank(s) && IsText(JString(s))
  {
  }

  /** An action in the form the prompt asks for. */
  function Entry(id: string, a: ActionType, details: map<string, Json>): RawAction {
    map["action_id" := JString(id), "action_type" := JString(ActionTypeName(a)), "reason" := JString("advance"),
        "params" := JObject(details)]
  }

  lemma EntryFields(id: string, a: ActionType, details: map<string, Json>)
    ensures var raw := Entry(id, a, details);
      && "invalid_payload" !in raw && "coalition" !in raw
      && DeclaredId(raw) == JString(id) && Get(raw, "action_type") == JString(ActionTypeName(a))
      && Get(raw, "reason") == JString("advance") && MergedParams(raw) == details
  {
    assert "coalition"[0] != "action_id"[0];
    assert |"invalid_payload"| == 15 && |"reason"| == |"params"| == 6 && |"action_type"| == 11 && |"action_id"| == 9;
    assert "reason"[0] != "params"[0];
    hide ActionTypeName;
  }

  lemma KindParses(a: ActionType)
    ensures ParseActionType(ActionTypeName(a)) == Some(a) && IsText(JString(ActionTypeName(a)))
  {
    StartsFilled(ActionTypeName(a));
  }

  /** An action whose fields are these parses to what its details say. */
  lemma FieldsParse(raw: RawAction, a: ActionType, details: map<string, Json>, p: Params, c: Coalition)
    requires "invalid_payload" !in raw && "coalition" !in raw && IsText(DeclaredId(raw)) && MergedParams(raw) == details
    requires Get(raw, "action_type") == JString(ActionTypeName(a)) && IsText(Get(raw, "reason"))
    requires ParseActionType(ActionTypeName(a)) == Some(a) && IsText(JString(ActionTypeName(a)))
    requires Schema(a, details) == Ok(Normalized(p, false))
    ensures ParseRequest(raw, c) == Parsed(p, false)
  {
    hide IsText, ParseActionType, Schema, MergedParams, DeclaredId, CoalitionName, ActionTypeName;
  }

  /** What the entry parses to is decided by its details. */
  lemma EntryParses(id: string, a: ActionType, details: map<string, Json>, p: Params, c: Coalition)
    requires !IsBlank(id) && Schema(a, details) == Ok(Normalized(p, false))
    ensures ParseRequest(Entry(id, a, details), c) == Parsed(p, false) && ReadActionId(Entry(id, a, details)) == id
  {
    StartsFilled("advance");
    hide IsBlank, ParseRequest, ParseActionType, Schema, MergedParams, DeclaredId, ActionTypeName, Entry, Get;
    EntryFields(id, a, details);
    KindParses(a);
    FieldsParse(Entry(id, a, details), a, details, p, c);
  }

  // --------------------------------------------------------------- a turn of one action

  function Alone(raw: RawAction): Json {
    JArray([JObject(raw)])
  }

  lemma AloneListed(raw: RawAction)
    ensures ActionList(Alone(raw)) == [raw] && ExtractActions(Alone(raw)).Some? && DeclaredIds(Alone(raw)) == [ReadActionId(raw)]
  {
    hide ReadActionId;
    var list := ActionList(Alone(raw));
    assert |list| == 1 && list[0] == AsRawAction(Alone(raw).items[0]);
  }

  lemma OneSurvives(sc: Scenario, ctx: Context, raw: RawAction, p: Params)
    requires ParseRequest(raw, ctx.coalition) == Parsed(p, false) && Legal(sc, ctx, p)
    ensures var vs := ValidateBatch(sc, ctx, [raw]);
      |vs| == 1 && Candidate(vs[0]) && vs[0].params == Some(p) && vs[0].actionId == ReadActionId(raw)
  {
    VerdictMeaning(raw, sc, ctx);
    var each := ValidateEach(sc, ctx, [raw]);
    assert Validated(raw, sc, ctx).actionId == ReadActionId(raw);
    hide ParseRequest, Legal, Validated, Resolve, ReadActionId;
    SelectionIsGreedy(each);
    assert Resolve(each)[0] == each[0];
  }

  lemma AloneVetted(sc: Scenario, env: Env, turn: Turn, raw: RawAction, p: Params)
    requires turn.Command? && turn.coalition in env.store.budgets && turn.payload == Alone(raw)
    requires ParseRequest(raw, turn.coalition) == Parsed(p, false)
    requires Legal(sc, ContextOf(env.store, turn.coalition, turn.known), p)
    ensures var vs := Vets(sc, env.store, turn);
      |vs| == 1 && Candidate(vs[0]) && vs[0].params == Some(p) && vs[0].actionId == ReadActionId(raw)
    ensures Executes(sc, env.store, turn)
  {
    AloneListed(raw);
    hide Alone, ActionList, ExtractActions, ReadActionId, ValidateBatch, Legal, ParseRequest, DeclaredIds, Executes;
    OneSurvives(sc, ContextOf(env.store, turn.coalition, turn.known), raw, p);
    ExecutesIff(sc, env.store, turn);
  }

  /** A turn whose payload is one legal action runs that action's plan, and does nothing else. */
  lemma TurnOfOne(
      sc: Scenario, sim: Simulator, env: Env, c: Coalition, known: Option<seq<KnownControlPoint>>, raw: RawAction, p: Params,
      now: int)
    requires ReferencesResolve(sc) && OrdersOk(env.store.orders) && c in env.store.budgets
    requires ParseRequest(raw, c) == Parsed(p, false) && Legal(sc, ContextOf(env.store, c, known), p)
    ensures WellFormed(p) && BuildPlan(sc, env.store, c, ReadActionId(raw), p, now).Some?
    ensures TakeTurn(sc, sim, env, Turn.Command(c, known, Alone(raw), now)) ==
            RunPlan(sim, env, c, BuildPlan(sc, env.store, c, ReadActionId(raw), p, now).value).0
  {
    hide Alone, ReadActionId, ParseRequest, Legal, BuildPlan, RunPlan, OrdersOk, ReferencesResolve, Vets, Executes,
      ExecuteBatch, WellFormed, Steps, RefinesSteps, Grown;
    var turn := Turn.Command(c, known, Alone(raw), now);
    AloneVetted(sc, env, turn, raw, p);
    VettedAction(sc, sim, env, env.store, c, known, ReadActionId(raw), p, now) by {
      GrownFromItself(env.store);
    }
    var vs := Vets(sc, env.store, turn);
    assert vs == [vs[0]];
    OneVerdict(sc, sim, env, c, vs[0], now);
  }

  lemma GrownFromItself(st: StoreState)
    ensures Grown(st, st)
  {
  }

  lemma OneVerdict(sc: Scenario, sim: Simulator, env: Env, c: Coalition, v: Verdict, now: int)
    requires Candidate(v) && BuildPlan(sc, env.store, c, v.actionId, v.params.value, now).Some?
    ensures ExecuteBatch(sc, sim, env, c, [v], now).env ==
            RunPlan(sim, env, c, BuildPlan(sc, env.store, c, v.actionId, v.params.value, now).value).0
  {
    assert [v][..0] == [];
    hide BuildPlan, RunPlan;
  }
}
