/** From the scenario file to the last batch: what the loader checks is what execution needs. */
module ScenarioRuns {
  import opened Domain
  import opened Toml
  import opened StateStore
  import opened Engine
  import Orders
  import opened Runs
  import opened ScenarioCodec
  import opened ScenarioRoundTrip

  /** Whatever file a scenario was loaded from: no batch of any run ever fails a lookup. */
  lemma LoadedScenariosNeverAbort(casts: Casts, raw: seq<Field>, sim: Simulator, turns: seq<Turn>, turn: Turn)
    requires Load(casts, raw).Ok? && CreateRun(Load(casts, raw).value).Some? && turn.Command?
    ensures var sc := Load(casts, raw).value;
      var env := Run(sc, sim, Env(CreateRun(sc).value, []), turns);
      turn.coalition in env.store.budgets ==>
        ExecuteBatch(sc, sim, env, turn.coalition, Vets(sc, env.store, turn), turn.now).Completed?
  {
    LoadedIsGood(casts, raw);
    hide Load, CreateRun, Run, ExecuteBatch, Vets, ReferencesResolve;
    NoBatchEverAborts(Load(casts, raw).value, sim, turns, turn);
  }

  lemma {:induction false} BudgetListed(rows: seq<CoalitionState>, c: Coalition)
    ensures c in BudgetTable(rows) <==> exists row <- rows :: row.coalition == c
  {
    if rows != [] {
      var front, last := rows[..|rows| - 1], rows[|rows| - 1];
      assert rows == front + [last];
      BudgetListed(front, c);
    }
  }

  lemma {:induction false} BudgetsStay(sc: Scenario, sim: Simulator, env: Env, turns: seq<Turn>)
    requires ReferencesResolve(sc) && Orders.OrdersOk(env.store.orders)
    ensures Run(sc, sim, env, turns).store.budgets.Keys == env.store.budgets.Keys
  {
    hide TakeTurn;
    if turns != [] {
      BudgetsStay(sc, sim, env, turns[..|turns| - 1]);
      RunKeepsOrders(sc, sim, env, turns[..|turns| - 1]);
      TurnKeepsOrders(sc, sim, Run(sc, sim, env, turns[..|turns| - 1]), turns[|turns| - 1]);
    }
  }

  /** The coalition condition above is no restriction for a side that owns anything: in a loaded
      scenario every owner of a group or a reserve has a budget, throughout the run. */
  lemma OwnersAlwaysHaveBudgets(casts: Casts, raw: seq<Field>, sim: Simulator, turns: seq<Turn>, c: Coalition)
    requires Load(casts, raw).Ok? && CreateRun(Load(casts, raw).value).Some?
    requires var sc := Load(casts, raw).value;
      (exists g <- sc.activeGroups :: g.coalition == c) || exists r <- sc.reserveGroups :: r.coalition == c
    ensures var sc := Load(casts, raw).value;
      c in Run(sc, sim, Env(CreateRun(sc).value, []), turns).store.budgets
  {
    var sc := Load(casts, raw).value;
    LoadedIsGood(casts, raw);
    BudgetListed(sc.coalitions, c);
    hide Load, Run, ReferencesResolve, GoodRecords;
    BudgetsStay(sc, sim, Env(CreateRun(sc).value, []), turns);
  }
}
