/** A group authored under the name a reserve will get on the map, and what a deployment does to it. */
module NameClash {
  import opened Domain
  import opened Requests
  import opened Validation
  import opened StateStore
  import opened Planning
  import opened Engine
  import opened Orders
  import opened Batches
  import opened Runs
  import opened Frames
  import opened Movement
  import opened Payloads
  import opened Overdraft
  import opened ScenarioRoundTrip

  const REAR := Sector("rear", "Rear", "rear", [], [], None, None, 1.0)

  function Bunker(owner: Coalition): ActiveGroup {
    ActiveGroup("deployed_a", owner, "armor", Defensive, Some("rear"), false, "ready", None, 0, 0)
  }

  /** Red may deploy reserve "a" in the field; somebody's immobile group in the rear bears its name. */
  function Namesake(owner: Coalition): Scenario {
    Scenario(
      "duel", "1", "Duel", "plain", "one name twice", [FIELD, REAR], [HILL],
      [CoalitionState(Red, [], 3, ["a"], [], 0, 0), CoalitionState(Blue, [], 0, [], [], 0, 0)], [Bunker(owner)],
      [Company("a")], [], [])
  }

  lemma MoreWords()
    ensures !IsBlank("one name twice") && !IsBlank("rear") && !IsBlank("Rear") && !IsBlank("deployed_a") && !IsBlank("ready")
  {
    hide IsBlank;
    StartsFilled("one name twice");
    StartsFilled("rear");
    StartsFilled("Rear");
    StartsFilled("deployed_a");
    StartsFilled("ready");
  }

  lemma NamesakeLoads(owner: Coalition)
    ensures Loadable(Namesake(owner)) && ReferencesResolve(Namesake(owner))
  {
    WordsAreFilled();
    MoreWords();
    hide IsBlank;
    var sc := Namesake(owner);
    assert sc.sectors[0] == FIELD && sc.sectors[1] == REAR;
    assert sc.coalitions[0].coalition == Red && sc.coalitions[1].coalition == Blue;
    hide Loadable, ReferencesResolve;
    GoodIsLoadable(sc);
    ConsistentResolves(sc);
  }

  lemma NamesakeStarts(owner: Coalition)
    ensures CreateRun(Namesake(owner)).Some?
    ensures var st := CreateRun(Namesake(owner)).value;
      && Red in st.budgets && st.budgets[Red] == 3 && OrdersOk(st.orders)
      && "a" in st.reserves && st.reserves["a"] == Company("a")
      && DeployedId("a") == "deployed_a" && "deployed_a" in st.active && st.active["deployed_a"] == Bunker(owner)
  {
    var sc := Namesake(owner);
    assert sc.reserveGroups[..0] == [] && sc.activeGroups[..0] == [] && sc.coalitions[..1][..0] == [];
    assert sc.coalitions[..1] == [sc.coalitions[0]] && BudgetTable(sc.coalitions[..1]) == map[Red := 3];
    assert "field"[0] != "rear"[0];
    hide Contains;
  }

  lemma DeployIsLegalThere(owner: Coalition, known: Option<seq<KnownControlPoint>>)
    requires CreateRun(Namesake(owner)).Some?
    requires var st := CreateRun(Namesake(owner)).value;
      Red in st.budgets && st.budgets[Red] == 3 && "a" in st.reserves && st.reserves["a"] == Company("a")
    ensures Legal(Namesake(owner), ContextOf(CreateRun(Namesake(owner)).value, Red, known), FIRST)
  {
    hide CreateRun;
    assert "defensive" != "fires" by { assert |"defensive"| != |"fires"|; }
    assert Namesake(owner).sectors[0] == FIELD;
    assert FindSector(Namesake(owner).sectors, "field").Some?;
  }

  /** Red's run opens with the deployment. */
  lemma OpensWithDeploy(owner: Coalition, sim: Simulator, known: Option<seq<KnownControlPoint>>, now: int)
    returns (start: StoreState)
    ensures CreateRun(Namesake(owner)) == Some(start) && ReferencesResolve(Namesake(owner)) && OrdersOk(start.orders)
    ensures Red in start.budgets && DeployedId("a") == "deployed_a" && "deployed_a" in start.active
    ensures start.active["deployed_a"] == Bunker(owner)
    ensures WellFormed(FIRST) && Legal(Namesake(owner), ContextOf(start, Red, known), FIRST)
    ensures BuildPlan(Namesake(owner), start, Red, "one", FIRST, now).Some?
    ensures TakeTurn(Namesake(owner), sim, Env(start, []), Turn.Command(Red, known, Alone(Order("one", "a")), now)) ==
            RunPlan(sim, Env(start, []), Red, BuildPlan(Namesake(owner), start, Red, "one", FIRST, now).value).0
  {
    NamesakeLoads(owner);
    NamesakeStarts(owner);
    DeployIsLegalThere(owner, known);
    WordsAreFilled();
    hide Loadable, CreateRun, ReferencesResolve, OrdersOk, WellFormed, Legal, BuildPlan, RunPlan, TakeTurn, Alone,
      Order, ParseRequest, IsBlank, ReadActionId, DeployedId, Bunker, Company, Namesake;
    start := CreateRun(Namesake(owner)).value;
    OrderParses("one", "a");
    TurnOfOne(Namesake(owner), sim, Env(start, []), Red, known, Order("one", "a"), FIRST, now);
  }

  /** The namesake is Blue's: Blue's holdings change at Red's deployment, for the group is now Red's. */
  lemma DeployTakesEnemyGroup(sim: Simulator, known: Option<seq<KnownControlPoint>>, now: int)
    requires AcceptsAll(sim)
    ensures Loadable(Namesake(Blue)) && CreateRun(Namesake(Blue)).Some?
    ensures var start := CreateRun(Namesake(Blue)).value;
      var end := TakeTurn(Namesake(Blue), sim, Env(start, []), Turn.Command(Red, known, Alone(Order("one", "a")), now));
      HoldingsOf(end.store, Blue) != HoldingsOf(start, Blue)
  {
    NamesakeLoads(Blue);
    hide Loadable, CreateRun, ReferencesResolve, OrdersOk, WellFormed, Legal, BuildPlan, RunPlan, TakeTurn, Alone,
      Order, HoldingsOf, DeployedId, Namesake;
    var start := OpensWithDeploy(Blue, sim, known, now);
    DeployLeavesOtherSideIff(Namesake(Blue), sim, Env(start, []), Red, Blue, known, "one", FIRST, now);
  }

  /** The namesake is Red's own: an immobile group is gone from the rear and stands in the field, which
      is no neighbour of the rear. */
  lemma DeployMovesNamesake(sim: Simulator, known: Option<seq<KnownControlPoint>>, now: int)
    requires AcceptsAll(sim)
    ensures Loadable(Namesake(Red)) && CreateRun(Namesake(Red)).Some?
    ensures var start := CreateRun(Namesake(Red)).value;
      var end := TakeTurn(Namesake(Red), sim, Env(start, []), Turn.Command(Red, known, Alone(Order("one", "a")), now));
      && "deployed_a" in start.active && "deployed_a" in end.store.active
      && !OneHop(Namesake(Red), start.active["deployed_a"], end.store.active["deployed_a"], true)
  {
    NamesakeLoads(Red);
    hide Loadable, CreateRun, ReferencesResolve, OrdersOk, WellFormed, Legal, BuildPlan, RunPlan, TakeTurn, Alone,
      Order, OneHop, DeployedId, Namesake;
    var start := OpensWithDeploy(Red, sim, known, now);
    DeployIsAHopIff(Namesake(Red), sim, Env(start, []), Red, known, "one", FIRST, now);
  }
}
