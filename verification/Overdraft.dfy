/** One payload that overdraws a budget: two deployments that are each affordable alone. */
module Overdraft {
  import opened Domain
  import opened Requests
  import opened Validation
  import opened Working
  import opened Conflicts
  import opened StateStore
  import opened Engine
  import opened Batches
  import opened Orders
  import opened Runs
  import opened Ledger
  import opened Conservation
  import opened Payloads
  import opened ScenarioRoundTrip

  const FIELD := Sector("field", "Field", "front", [], [], None, None, 1.0)
  const HILL := ControlPoint("hill", "Hill", "field", "hill", None, "high", None, None)

  function Company(id: string): ReserveGroup {
    ReserveGroup(id, Red, "armor", true, 3, ["field"], "available", false, 0, 0)
  }

  /** Red has a budget of 3 and two reserves that cost 3 each. */
  const DUEL := Scenario(
    "duel", "1", "Duel", "plain", "two companies", [FIELD], [HILL], [CoalitionState(Red, [], 3, ["a", "b"], [], 0, 0)], [],
    [Company("a"), Company("b")], [], [])

  lemma WordsAreFilled()
    ensures !IsBlank("duel") && !IsBlank("1") && !IsBlank("Duel") && !IsBlank("plain") && !IsBlank("two companies")
    ensures !IsBlank("field") && !IsBlank("Field") && !IsBlank("front")
    ensures !IsBlank("hill") && !IsBlank("Hill") && !IsBlank("high")
    ensures !IsBlank("a") && !IsBlank("b") && !IsBlank("armor") && !IsBlank("available")
    ensures !IsBlank("one") && !IsBlank("two") && !IsBlank("defensive")
  {
    hide IsBlank;
    StartsFilled("duel");
    StartsFilled("1");
    StartsFilled("Duel");
    StartsFilled("plain");
    StartsFilled("two companies");
    StartsFilled("field");
    StartsFilled("Field");
    StartsFilled("front");
    StartsFilled("hill");
    StartsFilled("Hill");
    StartsFilled("high");
    StartsFilled("a");
    StartsFilled("b");
    StartsFilled("armor");
    StartsFilled("available");
    StartsFilled("one");
    StartsFilled("two");
    StartsFilled("defensive");
  }

  lemma DuelLoads()
    ensures Loadable(DUEL)
  {
    WordsAreFilled();
    hide IsBlank;
    assert DUEL.sectors[0] == FIELD;
    GoodIsLoadable(DUEL);
    hide Loadable;
  }

  function Details(reserveId: string): map<string, Json> {
    map["reserve_group_id" := JString(reserveId), "target_sector_id" := JString("field"), "role" := JString("defensive")]
  }

  lemma DetailsParse(reserveId: string)
    requires !IsBlank(reserveId)
    ensures Schema(DeployReserveGroup, Details(reserveId)) == Ok(Normalized(Deploy(reserveId, "field", "defensive"), false))
  {
    WordsAreFilled();
    hide IsBlank, IsSpace;
    assert "reserve_group_id"[0] != "target_sector_id"[0];
    assert |"role"| != |"reserve_group_id"| && |"role"| != |"target_sector_id"|;
    var fields := Details(reserveId);
    assert Get(fields, "reserve_group_id") == JString(reserveId);
    assert Get(fields, "target_sector_id") == JString("field");
    assert Get(fields, "role") == JString("defensive");
  }

  /** What a model sends to deploy a reserve. */
  function Order(id: string, reserveId: string): RawAction {
    Entry(id, DeployReserveGroup, Details(reserveId))
  }

  const BOTH := JArray([JObject(Order("one", "a")), JObject(Order("two", "b"))])

  lemma OrderParses(id: string, reserveId: string)
    requires !IsBlank(id) && !IsBlank(reserveId)
    ensures ParseRequest(Order(id, reserveId), Red) == Parsed(Deploy(reserveId, "field", "defensive"), false)
    ensures ReadActionId(Order(id, reserveId)) == id
  {
    hide *;
    DetailsParse(reserveId);
    EntryParses(id, DeployReserveGroup, Details(reserveId), Deploy(reserveId, "field", "defensive"), Red);
    OrderIsEntry(id, reserveId);
  }

  lemma OrderIsEntry(id: string, reserveId: string)
    ensures Order(id, reserveId) == Entry(id, DeployReserveGroup, Details(reserveId))
  {
    hide Entry, Details;
  }

  lemma DuelStarts()
    ensures ReferencesResolve(DUEL) && CreateRun(DUEL).Some?
    ensures var st := CreateRun(DUEL).value;
      && st.budgets == map[Red := 3] && st.reserves == map["a" := Company("a"), "b" := Company("b")]
      && OrdersOk(st.orders) && DeployOrdersSpent(st)
  {
    var rows := DUEL.reserveGroups;
    assert "a"[0] != "b"[0];
    assert rows[..1] == [Company("a")] && rows[..1][..0] == [];
    assert DUEL.coalitions[..0] == [];
  }

  lemma DeployIsLegal(reserveId: string, known: Option<seq<KnownControlPoint>>)
    requires reserveId in {"a", "b"} && CreateRun(DUEL).Some?
    requires CreateRun(DUEL).value.budgets == map[Red := 3]
    requires CreateRun(DUEL).value.reserves == map["a" := Company("a"), "b" := Company("b")]
    ensures Legal(DUEL, ContextOf(CreateRun(DUEL).value, Red, known), Deploy(reserveId, "field", "defensive"))
  {
    hide CreateRun;
    assert "defensive" != "fires" by { assert |"defensive"| != |"fires"|; }
    assert FindSector(DUEL.sectors, "field").Some?;
  }

  /** Two legal actions that do not clash both survive. */
  lemma PairSurvives(sc: Scenario, ctx: Context, a: RawAction, b: RawAction, p: Params, q: Params)
    requires ParseRequest(a, ctx.coalition) == Parsed(p, false) && ParseRequest(b, ctx.coalition) == Parsed(q, false)
    requires Legal(sc, ctx, p) && Legal(sc, ctx, q) && !Clash(p, q)
    ensures IsPair(ValidateBatch(sc, ctx, [a, b]), p, q)
  {
    VerdictMeaning(a, sc, ctx);
    VerdictMeaning(b, sc, ctx);
    var each := ValidateEach(sc, ctx, [a, b]);
    hide ParseRequest, Legal, Validated, Resolve, Clash;
    SelectionIsGreedy(each);
    assert each[0] == Validated(a, sc, ctx) && each[1] == Validated(b, sc, ctx);
    assert Resolve(each)[0] == each[0];
    assert Resolve(each)[1] == each[1];
  }

  ghost predicate IsPair(vs: seq<Verdict>, p: Params, q: Params) {
    && |vs| == 2 && Candidate(vs[0]) && Candidate(vs[1])
    && vs[0].params.value == p && vs[1].params.value == q
  }

  lemma PairCosts(reserves: map<string, ReserveGroup>, vs: seq<Verdict>, p: Params, q: Params, taken: iset<string>)
    requires IsPair(vs, p, q) && p.Deploy? && q.Deploy? && p.reserveId in reserves && q.reserveId in reserves
    requires p.reserveId in taken && q.reserveId in taken
    ensures TakenCost(reserves, vs, taken) == reserves[p.reserveId].cost + reserves[q.reserveId].cost
  {
    assert vs[..1][..0] == [] && vs[..1][0] == vs[0];
    assert TakenCost(reserves, vs[..1], taken) == reserves[p.reserveId].cost;
  }

  const FIRST := Deploy("a", "field", "defensive")
  const SECOND := Deploy("b", "field", "defensive")

  lemma PairListed(a: RawAction, b: RawAction)
    ensures var payload := JArray([JObject(a), JObject(b)]);
      && ActionList(payload) == [a, b] && ExtractActions(payload).Some?
      && DeclaredIds(payload) == [ReadActionId(a), ReadActionId(b)]
  {
    hide ReadActionId;
    var payload := JArray([JObject(a), JObject(b)]);
    var list := ActionList(payload);
    assert |list| == 2 && list[0] == AsRawAction(payload.items[0]) && list[1] == AsRawAction(payload.items[1]);
  }

  lemma NamesDiffer()
    ensures "one" != "two" && !Clash(FIRST, SECOND)
  {
    assert "a"[0] != "b"[0] && "one"[0] != "two"[0];
  }

  lemma BothSurvive(known: Option<seq<KnownControlPoint>>, now: int)
    requires CreateRun(DUEL).Some? && CreateRun(DUEL).value.budgets == map[Red := 3]
    requires CreateRun(DUEL).value.reserves == map["a" := Company("a"), "b" := Company("b")]
    ensures IsPair(Vets(DUEL, CreateRun(DUEL).value, Command(Red, known, BOTH, now)), FIRST, SECOND)
  {
    DeployIsLegal("a", known);
    DeployIsLegal("b", known);
    hide CreateRun, ParseRequest, Legal, Order, ValidateBatch, IsPair, Clash, IsBlank, ActionList, Company;
    NamesDiffer();
    WordsAreFilled();
    OrderParses("one", "a");
    OrderParses("two", "b");
    PairListed(Order("one", "a"), Order("two", "b"));
    PairSurvives(DUEL, ContextOf(CreateRun(DUEL).value, Red, known), Order("one", "a"), Order("two", "b"), FIRST, SECOND);
  }

  lemma BothExecute(known: Option<seq<KnownControlPoint>>, now: int)
    requires CreateRun(DUEL).Some? && Red in CreateRun(DUEL).value.budgets
    ensures Executes(DUEL, CreateRun(DUEL).value, Command(Red, known, BOTH, now))
  {
    hide CreateRun, Order, Executes, DeclaredId, Clash, IsBlank, ActionList, ExtractActions, DeclaredIds;
    NamesDiffer();
    WordsAreFilled();
    OrderParses("one", "a");
    OrderParses("two", "b");
    PairListed(Order("one", "a"), Order("two", "b"));
    ExecutesIff(DUEL, CreateRun(DUEL).value, Command(Red, known, BOTH, now));
  }

  /** A simulator that takes everything lets both be charged. */
  lemma PairSpent(sc: Scenario, sim: Simulator, st: StoreState, turn: Turn, p: Params, q: Params)
    requires ReferencesResolve(sc) && OrdersOk(st.orders) && DeployOrdersSpent(st) && AcceptsAll(sim)
    requires Executes(sc, st, turn) && IsPair(Vets(sc, st, turn), p, q) && p.Deploy? && q.Deploy?
    requires p.reserveId in st.reserves && q.reserveId in st.reserves
    ensures var end := TakeTurn(sc, sim, Env(st, []), turn).store;
      && turn.coalition in end.budgets
      && end.budgets[turn.coalition] ==
         st.budgets[turn.coalition] - st.reserves[p.reserveId].cost - st.reserves[q.reserveId].cost
  {
    var all := iset id: string | |id| >= 0;
    assert Takes(sim, all);
    hide TakeTurn, ReferencesResolve, Vets, IsPair, TakenCost, TopCost, Takes, AcceptsAll, OrdersOk,
      DeployOrdersSpent;
    TurnSpends(sc, sim, Env(st, []), turn, all);
    PairCosts(st.reserves, Vets(sc, st, turn), p, q, all);
  }

  /** What is left of a budget if the run opens with this turn. */
  ghost predicate OpeningLeaves(sc: Scenario, sim: Simulator, turn: Turn, c: Coalition, amount: int) {
    && CreateRun(sc).Some?
    && var end := TakeTurn(sc, sim, Env(CreateRun(sc).value, []), turn).store;
    c in end.budgets && end.budgets[c] == amount
  }

  /** The scenario loads, Red's run opens with these two orders, the simulator takes both, and the
      budget is at -3. */
  lemma TwoDeploysCanOverdraw(sim: Simulator, known: Option<seq<KnownControlPoint>>, now: int)
    requires AcceptsAll(sim)
    ensures Loadable(DUEL) && OpeningLeaves(DUEL, sim, Command(Red, known, BOTH, now), Red, -3)
  {
    hide Loadable, TakeTurn, CreateRun, ReferencesResolve, Executes, Vets, IsPair, OrdersOk, DeployOrdersSpent;
    DuelLoads();
    DuelStarts();
    BothSurvive(known, now);
    BothExecute(known, now);
    PairSpent(DUEL, sim, CreateRun(DUEL).value, Command(Red, known, BOTH, now), FIRST, SECOND);
  }
}
