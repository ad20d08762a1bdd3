/** Conservation of money over batches and whole runs. */
module Conservation {
  import opened Domain
  import opened Requests
  import opened Validation
  import opened Working
  import opened Conflicts
  import opened StateStore
  import opened Planning
  import opened Engine
  import opened Orders
  import opened Batches
  import opened Runs
  import opened Ledger
  import opened OrderIndependence

  predicate DeploysReserve(v: Verdict, r: string) {
    Candidate(v) && v.params.value.Deploy? && v.params.value.reserveId == r
  }

  /** How many deploy actions survive in a batch. */
  function DeployCount(vs: seq<Verdict>): nat {
    if vs == [] then 0
    else
      var v := vs[|vs| - 1];
      DeployCount(vs[..|vs| - 1]) + if Candidate(v) && v.params.value.Deploy? then 1 else 0
  }

  ghost predicate DeployedBy(vs: seq<Verdict>, r: string) {
    exists v <- vs :: DeploysReserve(v, r)
  }

  /** Where the middle of a batch stands, seen from its start. */
  ghost predicate FundsMidBatch(before: StoreState, mid: StoreState, c: Coalition, vs: seq<Verdict>)
    requires c in before.budgets
  {
    && mid.budgets.Keys == before.budgets.Keys && mid.reserves.Keys == before.reserves.Keys
    && (forall d <- before.budgets :: d != c ==> mid.budgets[d] == before.budgets[d])
    && (forall r <- before.reserves :: mid.reserves[r] != before.reserves[r] ==> DeployedBy(vs, r))
    && (before.budgets[c] >= 0 ==> mid.budgets[c] >= (1 - DeployCount(vs)) * before.budgets[c])
  }

  lemma FloorAfterOneMore(budget: int, left: int, cost: int, k: nat)
    requires budget >= 0 && cost <= budget && left >= (1 - k) * budget
    ensures left - cost >= (1 - (k + 1)) * budget && left >= (1 - (k + 1)) * budget
  {
    assert (1 - (k + 1)) * budget == (1 - k) * budget - budget;
  }

  lemma OneMoreVerdict(vs: seq<Verdict>, v: Verdict)
    ensures DeployCount(vs + [v]) == DeployCount(vs) + if Candidate(v) && v.params.value.Deploy? then 1 else 0
    ensures forall r :: DeployedBy(vs + [v], r) <==> DeployedBy(vs, r) || DeploysReserve(v, r)
  {
    var vs' := vs + [v];
    assert vs'[..|vs|] == vs && vs'[|vs|] == v;
    forall r ensures DeployedBy(vs', r) <==> DeployedBy(vs, r) || DeploysReserve(v, r) {
      if DeployedBy(vs, r) {
        var w :| w in vs && DeploysReserve(w, r);
        assert w in vs';
      }
    }
  }

  lemma FundsNextAction(
      before: StoreState, mid: StoreState, mid': StoreState, c: Coalition, vs: seq<Verdict>, v: Verdict, accepted: bool)
    requires c in before.budgets && FundsMidBatch(before, mid, c, vs) && Candidate(v)
    requires var p := v.params.value;
      if p.Deploy? then
        && p.reserveId in before.reserves && mid.reserves[p.reserveId] == before.reserves[p.reserveId]
        && before.reserves[p.reserveId].cost <= before.budgets[c]
        && OneReserveSpent(mid, mid', c, p.reserveId, accepted)
      else mid'.budgets == mid.budgets && mid'.reserves == mid.reserves
    ensures FundsMidBatch(before, mid', c, vs + [v])
  {
    OneMoreVerdict(vs, v);
    hide DeployCount, DeployedBy, Deployable;
    var p := v.params.value;
    if p.Deploy? {
      if before.budgets[c] >= 0 {
        FloorAfterOneMore(before.budgets[c], mid.budgets[c], before.reserves[p.reserveId].cost, DeployCount(vs));
      }
      assert DeploysReserve(v, p.reserveId);
      assert forall r <- before.reserves :: r != p.reserveId ==> mid'.reserves[r] == mid.reserves[r];
    }
  }

  lemma FundsSkip(before: StoreState, mid: StoreState, c: Coalition, vs: seq<Verdict>, v: Verdict)
    requires c in before.budgets && FundsMidBatch(before, mid, c, vs) && !Candidate(v)
    ensures FundsMidBatch(before, mid, c, vs + [v])
  {
    OneMoreVerdict(vs, v);
  }

  lemma FundsAtStart(before: StoreState, c: Coalition)
    requires c in before.budgets
    ensures FundsMidBatch(before, before, c, [])
  {
  }

  lemma BooksNextAction(
      sc: Scenario, start: StoreState, sim: Simulator, before: StoreState, mid: Env, c: Coalition,
      known: Option<seq<KnownControlPoint>>, vs: seq<Verdict>, v: Verdict, now: int)
    requires c in before.budgets && Balanced(start, sim, mid) && FundsMidBatch(before, mid.store, c, vs)
    requires OrdersOk(mid.store.orders)
    requires Candidate(v) && WellFormed(v.params.value) && Legal(sc, ContextOf(before, c, known), v.params.value)
    requires forall w <- vs :: Candidate(w) ==> !Clash(w.params.value, v.params.value)
    requires BuildPlan(sc, mid.store, c, v.actionId, v.params.value, now).Some?
    ensures var plan := BuildPlan(sc, mid.store, c, v.actionId, v.params.value, now).value;
      var (mid', _) := RunPlan(sim, mid, c, plan);
      Balanced(start, sim, mid') && FundsMidBatch(before, mid'.store, c, vs + [v])
  {
    var p := v.params.value;
    var plan := BuildPlan(sc, mid.store, c, v.actionId, p, now).value;
    var (mid', result) := RunPlan(sim, mid, c, plan);
    if p.Deploy? {
      DeployKeepsBooks(sc, start, sim, mid, c, v.actionId, p, now);
    } else {
      FreeActionKeepsBooks(sc, start, sim, mid, c, v.actionId, p, now);
    }
    FundsNextAction(before, mid.store, mid'.store, c, vs, v, result.status == Succeeded);
  }

  lemma {:induction false} BatchKeepsBooks(
      sc: Scenario, start: StoreState, sim: Simulator, env: Env, c: Coalition, known: Option<seq<KnownControlPoint>>,
      vs: seq<Verdict>, now: int)
    requires ReferencesResolve(sc) && c in env.store.budgets && OrdersOk(env.store.orders)
    requires Vetted(sc, ContextOf(env.store, c, known), vs)
    requires Balanced(start, sim, env)
    ensures var env' := ExecuteBatch(sc, sim, env, c, vs, now).env;
      Balanced(start, sim, env') && FundsMidBatch(env.store, env'.store, c, vs)
  {
    hide BuildPlan, RunPlan, FundsMidBatch, Balanced;
    if vs != [] {
      var n := |vs| - 1;
      var front, v := vs[..n], vs[n];
      assert vs == front + [v];
      BatchKeepsBooks(sc, start, sim, env, c, known, front, now);
      BatchCompletes(sc, sim, env, c, known, front, now);
      var mid := ExecuteBatch(sc, sim, env, c, front, now).env;
      if Candidate(v) {
        VettedAction(sc, sim, mid, env.store, c, known, v.actionId, v.params.value, now);
        BooksNextAction(sc, start, sim, env.store, mid, c, known, front, v, now);
      } else {
        FundsSkip(env.store, mid.store, c, front, v);
      }
    } else {
      FundsAtStart(env.store, c);
    }
  }

  /** A batch with k surviving deploys that starts from a budget B >= 0 ends at no less than
      (1 - k) * B, and leaves the other coalition's budget alone. */
  lemma BatchBudgetFloor(sc: Scenario, sim: Simulator, env: Env, turn: Turn)
    requires ReferencesResolve(sc) && OrdersOk(env.store.orders) && DeployOrdersSpent(env.store)
    requires Executes(sc, env.store, turn) && env.store.budgets[turn.coalition] >= 0
    ensures var c := turn.coalition;
      var st' := TakeTurn(sc, sim, env, turn).store;
      && c in st'.budgets
      && st'.budgets[c] >= (1 - DeployCount(Vets(sc, env.store, turn))) * env.store.budgets[c]
      && forall d <- env.store.budgets :: d != c ==> d in st'.budgets && st'.budgets[d] == env.store.budgets[d]
  {
    hide ExecuteBatch, Vets, Vetted;
    // Books opened at the start of this batch, with a simulator that remembers the past.
    var past := env.sent;
    var reopened := Env(env.store, []);
    var sim' := (sent: seq<Request>, r: Request) => sim(past + sent, r);
    TurnCompletes(sc, sim, env, turn);
    BatchKeepsBooks(sc, env.store, sim', reopened, turn.coalition, turn.known, Vets(sc, env.store, turn), turn.now);
    BatchFromFreshHistory(sc, sim, sim', env, turn.coalition, Vets(sc, env.store, turn), turn.now);
  }

  /** Only the replies matter, not where the history of sent requests is counted from. */
  lemma {:induction false} BatchFromFreshHistory(
      sc: Scenario, sim: Simulator, sim': Simulator, env: Env, c: Coalition, vs: seq<Verdict>, now: int)
    requires forall sent, r :: sim'(sent, r) == sim(env.sent + sent, r)
    ensures var whole := ExecuteBatch(sc, sim, env, c, vs, now);
      var part := ExecuteBatch(sc, sim', Env(env.store, []), c, vs, now);
      && whole.Aborted? == part.Aborted? && whole.results == part.results
      && whole.env == Env(part.env.store, env.sent + part.env.sent)
  {
    hide BuildPlan, ApplyUpdates, IsDuplicate, ActiveFingerprints, EffectiveUpdates, EffectiveOrders, PlanResult;
    if vs != [] {
      var n := |vs| - 1;
      BatchFromFreshHistory(sc, sim, sim', env, c, vs[..n], now);
      var whole := ExecuteBatch(sc, sim, env, c, vs[..n], now);
      var part := ExecuteBatch(sc, sim', Env(env.store, []), c, vs[..n], now);
      if !whole.Aborted? && Candidate(vs[n]) {
        var built := BuildPlan(sc, part.env.store, c, vs[n].actionId, vs[n].params.value, now);
        if built.Some? {
          SendingFromFreshHistory(sim, sim', env.sent, part.env.sent, built.value.commands);
        }
      }
    } else {
      assert env.sent + [] == env.sent;
    }
  }

  lemma {:induction false} SendingFromFreshHistory(
      sim: Simulator, sim': Simulator, past: seq<Request>, sent: seq<Request>, commands: seq<Command>)
    requires forall later, r :: sim'(later, r) == sim(past + later, r)
    ensures AcceptedCount(sim, past + sent, commands) == AcceptedCount(sim', sent, commands)
    ensures SentAfter(sim, past + sent, commands) == past + SentAfter(sim', sent, commands)
    decreases |commands|
  {
    if commands != [] {
      var r := commands[0].request;
      assert past + (sent + [r]) == past + sent + [r];
      assert sim'(sent, r) == sim(past + sent, r);
      SendingFromFreshHistory(sim, sim', past, sent + [r], commands[1..]);
    }
  }

  // ------------------------------------------------------------------- whole runs

  lemma TurnKeepsBooks(sc: Scenario, start: StoreState, sim: Simulator, env: Env, turn: Turn)
    requires ReferencesResolve(sc) && OrdersOk(env.store.orders) && Balanced(start, sim, env)
    ensures Balanced(start, sim, TakeTurn(sc, sim, env, turn))
  {
    if Executes(sc, env.store, turn) {
      TurnCompletes(sc, sim, env, turn);
      BatchKeepsBooks(sc, start, sim, env, turn.coalition, turn.known, Vets(sc, env.store, turn), turn.now);
    }
  }

  lemma {:induction false} RunKeepsBooks(sc: Scenario, start: StoreState, sim: Simulator, turns: seq<Turn>)
    requires ReferencesResolve(sc) && start.orders == map[]
    ensures Balanced(start, sim, Run(sc, sim, Env(start, []), turns))
  {
    if turns != [] {
      var front := turns[..|turns| - 1];
      RunKeepsBooks(sc, start, sim, front);
      RunKeepsOrders(sc, sim, Env(start, []), front);
      TurnKeepsBooks(sc, start, sim, Run(sc, sim, Env(start, []), front), turns[|turns| - 1]);
    }
  }

  /** Conservation over whole runs: for any payloads, observations, ingests and simulator,
      the remaining budget plus the price of the deployments the simulator accepted is the
      starting budget; no reserve is ever deployed, and so paid for, twice; and a reserve is
      committed exactly when the simulator accepted its deployment. */
  lemma MoneyIsConserved(sc: Scenario, sim: Simulator, turns: seq<Turn>)
    requires ReferencesResolve(sc) && CreateRun(sc).Some?
    ensures var start := CreateRun(sc).value;
      var env := Run(sc, sim, Env(start, []), turns);
      var paid := Deployments(sim, env.sent);
      && AllDeploys(paid) && Distinct(ReserveIds(paid))
      && env.store.budgets.Keys == start.budgets.Keys
      && (forall c <- start.budgets :: env.store.budgets[c] + Price(start.reserves, paid, c) == start.budgets[c])
      && env.store.reserves.Keys == start.reserves.Keys
      && (forall r <- start.reserves ::
            Deployed(paid, r) <==> Deployable(start.reserves[r]) && env.store.reserves[r].status == "committed")
  {
    RunKeepsBooks(sc, CreateRun(sc).value, sim, turns);
  }

  // -------------------------------------------------------------------- overdrafts

  function CostOf(reserves: map<string, ReserveGroup>, v: Verdict): int {
    if Candidate(v) && v.params.value.Deploy? && v.params.value.reserveId in reserves
    then reserves[v.params.value.reserveId].cost else 0
  }

  /** What the surviving deploys of a batch can cost together at worst.  (Nothing keeps an author
      from giving a reserve a negative cost, so refusals can make a batch dearer.) */
  function TopCost(reserves: map<string, ReserveGroup>, vs: seq<Verdict>): int {
    if vs == [] then 0
    else
      var cost := CostOf(reserves, vs[|vs| - 1]);
      TopCost(reserves, vs[..|vs| - 1]) + if cost > 0 then cost else 0
  }

  /** What they cost if just the reserves in `taken` are accepted. */
  ghost function TakenCost(reserves: map<string, ReserveGroup>, vs: seq<Verdict>, taken: iset<string>): int {
    if vs == [] then 0
    else
      var v := vs[|vs| - 1];
      TakenCost(reserves, vs[..|vs| - 1], taken)
      + if Candidate(v) && v.params.value.Deploy? && v.params.value.reserveId in taken then CostOf(reserves, v) else 0
  }

  /** A simulator whose reply to a deployment depends on the reserve alone. */
  ghost predicate Takes(sim: Simulator, taken: iset<string>) {
    forall h, r: Request :: r.payload.DeployPayload? ==> (sim(h, r) <==> r.payload.reserveId in taken)
  }

  /** Where the middle of a batch stands: at worst, and exactly if the replies are fixed by reserve. */
  ghost predicate Spent(
      before: StoreState, mid: StoreState, c: Coalition, vs: seq<Verdict>, sim: Simulator, taken: iset<string>)
    requires c in before.budgets
  {
    && c in mid.budgets && mid.budgets[c] >= before.budgets[c] - TopCost(before.reserves, vs)
    && (Takes(sim, taken) ==> mid.budgets[c] == before.budgets[c] - TakenCost(before.reserves, vs, taken))
  }

  lemma SpentOneMore(
      before: StoreState, mid: StoreState, end: StoreState, c: Coalition, vs: seq<Verdict>, v: Verdict, sim: Simulator,
      taken: iset<string>, accepted: bool)
    requires c in before.budgets && Spent(before, mid, c, vs, sim, taken) && c in end.budgets
    requires end.budgets[c] == mid.budgets[c] - if accepted then CostOf(before.reserves, v) else 0
    requires Takes(sim, taken) && Candidate(v) && v.params.value.Deploy? ==> (accepted <==> v.params.value.reserveId in taken)
    ensures Spent(before, end, c, vs + [v], sim, taken)
  {
    hide Takes;
    assert (vs + [v])[..|vs|] == vs;
  }

  lemma SpentAtStart(before: StoreState, c: Coalition, sim: Simulator, taken: iset<string>)
    requires c in before.budgets
    ensures Spent(before, before, c, [], sim, taken)
  {
  }

  lemma {:induction false} BatchSpends(
      sc: Scenario, start: StoreState, sim: Simulator, env: Env, c: Coalition, known: Option<seq<KnownControlPoint>>,
      vs: seq<Verdict>, now: int, taken: iset<string>)
    requires ReferencesResolve(sc) && c in env.store.budgets && OrdersOk(env.store.orders)
    requires Vetted(sc, ContextOf(env.store, c, known), vs) && Balanced(start, sim, env)
    ensures Spent(env.store, ExecuteBatch(sc, sim, env, c, vs, now).env.store, c, vs, sim, taken)
  {
    hide BuildPlan, RunPlan, FundsMidBatch, Balanced, Spent, ExecuteBatch, ExecuteAction, Grown, ReferencesResolve;
    if vs == [] {
      SpentAtStart(env.store, c, sim, taken);
      NothingToDo(sc, sim, env, c, now);
      assert vs == [];
    } else {
      var n := |vs| - 1;
      var front, v := vs[..n], vs[n];
      assert vs == front + [v];
      BatchSpends(sc, start, sim, env, c, known, front, now, taken);
      BatchKeepsBooks(sc, start, sim, env, c, known, front, now);
      BatchCompletes(sc, sim, env, c, known, front, now);
      var mid := ExecuteBatch(sc, sim, env, c, front, now).env;
      if Candidate(v) {
        VettedAction(sc, sim, mid, env.store, c, known, v.actionId, v.params.value, now);
        ActionSpends(sc, start, sim, env.store, mid, c, known, front, v, now, taken);
        LastOfBatch(sc, sim, env, c, front, v, now);
      } else {
        SpentOneMore(env.store, mid.store, mid.store, c, front, v, sim, taken, false);
        RejectedLast(sc, sim, env, c, front, v, now);
      }
    }
  }

  lemma ActionSpends(
      sc: Scenario, start: StoreState, sim: Simulator, before: StoreState, mid: Env, c: Coalition,
      known: Option<seq<KnownControlPoint>>, vs: seq<Verdict>, v: Verdict, now: int, taken: iset<string>)
    requires c in before.budgets && Balanced(start, sim, mid) && FundsMidBatch(before, mid.store, c, vs)
    requires Spent(before, mid.store, c, vs, sim, taken)
    requires OrdersOk(mid.store.orders) && c in mid.store.budgets
    requires Candidate(v) && WellFormed(v.params.value) && Legal(sc, ContextOf(before, c, known), v.params.value)
    requires forall w <- vs :: Candidate(w) ==> !Clash(w.params.value, v.params.value)
    requires BuildPlan(sc, mid.store, c, v.actionId, v.params.value, now).Some?
    ensures var plan := BuildPlan(sc, mid.store, c, v.actionId, v.params.value, now).value;
      Spent(before, RunPlan(sim, mid, c, plan).0.store, c, vs + [v], sim, taken)
  {
    hide Spent;
    var p := v.params.value;
    var plan := BuildPlan(sc, mid.store, c, v.actionId, p, now).value;
    var end := RunPlan(sim, mid, c, plan).0.store;
    if p.Deploy? {
      DeployKeepsBooks(sc, start, sim, mid, c, v.actionId, p, now);
      SpentOneMore(before, mid.store, end, c, vs, v, sim, taken, sim(mid.sent, DeployRequest(c, p)));
    } else {
      FreeActionKeepsBooks(sc, start, sim, mid, c, v.actionId, p, now);
      SpentOneMore(before, mid.store, end, c, vs, v, sim, taken, false);
    }
  }

  /** What a turn spends, on any store whose orders and deployments are in good keeping. */
  lemma TurnSpends(sc: Scenario, sim: Simulator, env: Env, turn: Turn, taken: iset<string>)
    requires ReferencesResolve(sc) && OrdersOk(env.store.orders) && DeployOrdersSpent(env.store)
    requires Executes(sc, env.store, turn)
    ensures Spent(env.store, TakeTurn(sc, sim, env, turn).store, turn.coalition, Vets(sc, env.store, turn), sim, taken)
  {
    hide ExecuteBatch, Vets, Vetted;
    // Books opened at the start of this batch, with a simulator that remembers the past.
    var past := env.sent;
    var reopened := Env(env.store, []);
    var sim' := (sent: seq<Request>, r: Request) => sim(past + sent, r);
    TurnCompletes(sc, sim, env, turn);
    BatchSpends(sc, env.store, sim', reopened, turn.coalition, turn.known, Vets(sc, env.store, turn), turn.now, taken);
    BatchFromFreshHistory(sc, sim, sim', env, turn.coalition, Vets(sc, env.store, turn), turn.now);
  }

  /** The reserves that cost anything. */
  function Costly(reserves: map<string, ReserveGroup>): iset<string> {
    iset r | r in reserves && reserves[r].cost > 0
  }

  lemma {:induction false} CostlyCostMost(reserves: map<string, ReserveGroup>, vs: seq<Verdict>)
    ensures TakenCost(reserves, vs, Costly(reserves)) == TopCost(reserves, vs)
  {
    if vs != [] {
      CostlyCostMost(reserves, vs[..|vs| - 1]);
    }
  }

  ghost predicate InFunds(st: StoreState, c: Coalition) {
    c in st.budgets && st.budgets[c] >= 0
  }

  /** Budgets can be overdrawn, and exactly when: a batch leaves a budget of at least zero whatever
      the simulator answers, if and only if what its surviving deploys can cost at worst was there.
      (Validation compares each of them alone with the budget at the start.) */
  lemma OverdrawnExactlyWhen(sc: Scenario, env: Env, turn: Turn)
    requires ReferencesResolve(sc) && OrdersOk(env.store.orders) && DeployOrdersSpent(env.store)
    requires Executes(sc, env.store, turn)
    ensures (forall sim: Simulator :: InFunds(TakeTurn(sc, sim, env, turn).store, turn.coalition)) <==>
              TopCost(env.store.reserves, Vets(sc, env.store, turn)) <= env.store.budgets[turn.coalition]
  {
    hide TakeTurn, Vets, TopCost, OrdersOk, DeployOrdersSpent;
    var c, costly := turn.coalition, Costly(env.store.reserves);
    forall sim: Simulator | TopCost(env.store.reserves, Vets(sc, env.store, turn)) <= env.store.budgets[c]
      ensures InFunds(TakeTurn(sc, sim, env, turn).store, c)
    {
      TurnSpends(sc, sim, env, turn, costly);
    }
    var dear: Simulator := (h: seq<Request>, r: Request) => r.payload.DeployPayload? && r.payload.reserveId in costly;
    TurnSpends(sc, dear, env, turn, costly);
    CostlyCostMost(env.store.reserves, Vets(sc, env.store, turn));
    assert Takes(dear, costly);
    assert InFunds(TakeTurn(sc, dear, env, turn).store, c) ==>
      TopCost(env.store.reserves, Vets(sc, env.store, turn)) <= env.store.budgets[c];
  }

  /** Every store a run reaches is in such keeping. */
  lemma ReachableIsKept(sc: Scenario, sim: Simulator, turns: seq<Turn>)
    requires ReferencesResolve(sc) && CreateRun(sc).Some?
    ensures var st := Run(sc, sim, Env(CreateRun(sc).value, []), turns).store;
      OrdersOk(st.orders) && DeployOrdersSpent(st)
  {
    RunKeepsBooks(sc, CreateRun(sc).value, sim, turns);
    RunKeepsOrders(sc, sim, Env(CreateRun(sc).value, []), turns);
  }
}
