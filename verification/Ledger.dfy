/** Money: what a coalition has spent is exactly the price of the reserves the simulator
    took, each of them once. */
module Ledger {
  import opened Domain
  import opened Requests
  import opened StateStore
  import opened Planning
  import opened Engine
  import opened Orders
  import opened Atoms

  // ---------------------------------------------------- the simulator's side of it

  /** The deploy payloads the simulator accepted, in the order they were sent. */
  function Deployments(sim: Simulator, sent: seq<Request>): seq<Payload> {
    if sent == [] then []
    else
      var front, last := sent[..|sent| - 1], sent[|sent| - 1];
      Deployments(sim, front) + if last.payload.DeployPayload? && sim(front, last) then [last.payload] else []
  }

  predicate AllDeploys(ps: seq<Payload>) {
    forall d <- ps :: d.DeployPayload?
  }

  /** The price coalition c pays for a list of deployments. */
  function Price(reserves: map<string, ReserveGroup>, ps: seq<Payload>, c: Coalition): int {
    if ps == [] then 0
    else
      var d := ps[|ps| - 1];
      Price(reserves, ps[..|ps| - 1], c)
      + if d.DeployPayload? && d.coalition == c && d.reserveId in reserves then reserves[d.reserveId].cost else 0
  }

  ghost predicate Deployed(ps: seq<Payload>, r: string) {
    exists d <- ps :: d.DeployPayload? && d.reserveId == r
  }

  function ReserveIds(ps: seq<Payload>): (r: seq<string>)
    requires AllDeploys(ps)
    ensures |r| == |ps| && forall i :: 0 <= i < |r| ==> r[i] == ps[i].reserveId
  {
    seq(|ps|, i requires 0 <= i < |ps| => ps[i].reserveId)
  }

  // ------------------------------------------------------------------ the books

  /** A deploy order on file means its reserve is gone. */
  ghost predicate DeployOrdersSpent(st: StoreState) {
    forall id <- st.orders ::
      st.orders[id].fingerprint.params.Deploy? ==>
        var r := st.orders[id].fingerprint.params.reserveId;
        r in st.reserves ==> !Deployable(st.reserves[r])
  }

  /** Every accepted deployment names an own reserve of the start, and no reserve twice. */
  ghost predicate PaidOnce(start: StoreState, paid: seq<Payload>) {
    && AllDeploys(paid) && Distinct(ReserveIds(paid))
    && forall d <- paid :: d.reserveId in start.reserves && d.coalition == start.reserves[d.reserveId].coalition
  }

  /** Exactly the deployed reserves are committed; all others are as at the start. */
  ghost predicate ReservesFollow(start: StoreState, st: StoreState, paid: seq<Payload>) {
    && st.reserves.Keys == start.reserves.Keys
    && forall r <- start.reserves ::
         if Deployed(paid, r)
         then Deployable(start.reserves[r]) && st.reserves[r] == start.reserves[r].(available := false, status := "committed")
         else st.reserves[r] == start.reserves[r]
  }

  /** Money is conserved: what is left plus the price of the accepted deployments. */
  ghost predicate FundsFollow(start: StoreState, st: StoreState, paid: seq<Payload>) {
    && st.budgets.Keys == start.budgets.Keys
    && forall c <- start.budgets :: st.budgets[c] + Price(start.reserves, paid, c) == start.budgets[c]
  }

  /** The books of a run that started at `start`, given what the simulator accepted since. */
  ghost predicate Balanced(start: StoreState, sim: Simulator, env: Env) {
    var paid := Deployments(sim, env.sent);
    && PaidOnce(start, paid) && ReservesFollow(start, env.store, paid) && FundsFollow(start, env.store, paid)
    && DeployOrdersSpent(env.store)
  }

  // ---------------------------------------------------------- one executed action

  predicate FreeOfCharge(a: Atom) {
    !a.Commit? && !a.order.fingerprint.params.Deploy?
  }

  lemma {:induction false} FreeStepsKeepFunds(st: StoreState, steps: seq<Atom>, now: int)
    requires forall a <- steps :: FreeOfCharge(a)
    ensures var st' := PerformAll(st, steps, now);
      st'.budgets == st.budgets && st'.reserves == st.reserves && (DeployOrdersSpent(st) ==> DeployOrdersSpent(st'))
  {
    hide Contains, PlacedWorldGroup, MovedGroup;
    if steps != [] {
      var front, last := steps[..|steps| - 1], steps[|steps| - 1];
      FreeStepsKeepFunds(st, front, now);
      assert FreeOfCharge(last) && PerformAll(st, steps, now) == Perform(PerformAll(st, front, now), last, now);
    }
  }

  predicate NoDeploys(commands: seq<Command>) {
    forall k <- commands :: !k.request.payload.DeployPayload?
  }

  lemma {:induction false} OtherCommandsBuyNothing(sim: Simulator, sent: seq<Request>, commands: seq<Command>)
    requires NoDeploys(commands)
    ensures Deployments(sim, SentAfter(sim, sent, commands)) == Deployments(sim, sent)
    decreases |commands|
  {
    if commands != [] {
      var sent' := sent + [commands[0].request];
      assert sent'[..|sent' | - 1] == sent;
      assert commands[0] in commands;
      if sim(sent, commands[0].request) {
        assert NoDeploys(commands[1..]);
        OtherCommandsBuyNothing(sim, sent', commands[1..]);
      }
    }
  }

  lemma OnlyDeployPlansDeploy(sc: Scenario, st: StoreState, c: Coalition, actionId: string, p: Params, now: int)
    requires !p.Deploy? && BuildPlan(sc, st, c, actionId, p, now).Some?
    ensures NoDeploys(BuildPlan(sc, st, c, actionId, p, now).value.commands)
  {
  }

  lemma OnlyDeployStepsCharge(sc: Scenario, c: Coalition, p: Params, now: int)
    requires !p.Deploy? && Steps(sc, c, p, now).Some?
    ensures forall a <- Steps(sc, c, p, now).value :: FreeOfCharge(a)
  {
  }

  lemma FreeActionKeepsBooks(
      sc: Scenario, start: StoreState, sim: Simulator, env: Env, c: Coalition, actionId: string, p: Params, now: int)
    requires !p.Deploy? && WellFormed(p) && OrdersOk(env.store.orders) && Balanced(start, sim, env)
    requires BuildPlan(sc, env.store, c, actionId, p, now).Some?
    ensures var (env', _) := RunPlan(sim, env, c, BuildPlan(sc, env.store, c, actionId, p, now).value);
      && Balanced(start, sim, env')
      && env'.store.budgets == env.store.budgets && env'.store.reserves == env.store.reserves
  {
    ActionRefines(sc, sim, env, c, actionId, p, now);
    OnlyDeployPlansDeploy(sc, env.store, c, actionId, p, now);
    OnlyDeployStepsCharge(sc, c, p, now);
    var plan := BuildPlan(sc, env.store, c, actionId, p, now).value;
    OtherCommandsBuyNothing(sim, env.sent, plan.commands);
    var steps := Steps(sc, c, p, now).value[..Effective(plan, RunPlan(sim, env, c, plan).1)];
    assert forall a <- steps :: a in Steps(sc, c, p, now).value;
    FreeStepsKeepFunds(env.store, steps, now);
  }

  /** A deploy of a still deployable reserve is never mistaken for a repetition, so it is
      charged exactly when the simulator accepts its one command. */
  lemma DeployIsNotSkipped(
      sc: Scenario, env: Env, c: Coalition, actionId: string, p: Params, now: int)
    requires p.Deploy? && OrdersOk(env.store.orders) && DeployOrdersSpent(env.store)
    requires DeployPlan(sc, env.store, c, actionId, p, now).Some? && Deployable(env.store.reserves[p.reserveId])
    ensures !IsDuplicate(DeployPlan(sc, env.store, c, actionId, p, now).value, ActiveFingerprints(env.store.orders, c))
  {
    var orders := DeployPlan(sc, env.store, c, actionId, p, now).value.orders;
    assert orders[0] in orders && orders[0].fingerprint.params == p;
  }

  lemma SentOne(sim: Simulator, sent: seq<Request>, command: Command)
    requires command.request.payload.DeployPayload?
    ensures SentAfter(sim, sent, [command]) == sent + [command.request]
    ensures AcceptedCount(sim, sent, [command]) == if sim(sent, command.request) then 1 else 0
    ensures Deployments(sim, sent + [command.request]) ==
            Deployments(sim, sent) + if sim(sent, command.request) then [command.request.payload] else []
  {
    assert (sent + [command.request])[..|sent|] == sent;
    assert SentAfter(sim, sent + [command.request], []) == sent + [command.request];
  }

  /** One more deployment of a reserve not deployed before. */
  lemma DeployedGrows(paid: seq<Payload>, d: Payload)
    requires AllDeploys(paid) && Distinct(ReserveIds(paid)) && d.DeployPayload? && !Deployed(paid, d.reserveId)
    ensures AllDeploys(paid + [d]) && Distinct(ReserveIds(paid + [d]))
    ensures forall r :: Deployed(paid + [d], r) <==> Deployed(paid, r) || r == d.reserveId
  {
    var paid' := paid + [d];
    forall i | 0 <= i < |paid| ensures paid[i].reserveId != d.reserveId {
      assert paid[i] in paid;
    }
    assert d in paid' by {
      assert paid'[|paid|] == d;
    }
    forall r ensures Deployed(paid', r) <==> Deployed(paid, r) || r == d.reserveId {
      if Deployed(paid, r) {
        var e :| e in paid && e.DeployPayload? && e.reserveId == r;
        assert e in paid';
      }
    }
  }

  /** The store after charging and committing one reserve. */
  ghost predicate Charged(st: StoreState, st': StoreState, d: Payload, o: StandingOrder)
    requires d.DeployPayload?
  {
    && d.reserveId in st.reserves && Deployable(st.reserves[d.reserveId])
    && st.reserves[d.reserveId].coalition == d.coalition && d.coalition in st.budgets
    && st'.budgets == st.budgets[d.coalition := st.budgets[d.coalition] - st.reserves[d.reserveId].cost]
    && st'.reserves == st.reserves[d.reserveId := st.reserves[d.reserveId].(available := false, status := "committed")]
    && st'.orders == st.orders[o.id := o] && o.fingerprint.params.Deploy? && o.fingerprint.params.reserveId == d.reserveId
  }

  lemma FundsAfterCommit(start: StoreState, st: StoreState, st': StoreState, paid: seq<Payload>, d: Payload, o: StandingOrder)
    requires FundsFollow(start, st, paid) && ReservesFollow(start, st, paid)
    requires d.DeployPayload? && Charged(st, st', d, o)
    ensures FundsFollow(start, st', paid + [d])
  {
    assert (paid + [d])[..|paid|] == paid;
  }

  lemma BooksAfterCommit(
      start: StoreState, sim: Simulator, env: Env, env': Env, d: Payload, o: StandingOrder)
    requires Balanced(start, sim, env) && d.DeployPayload?
    requires Deployments(sim, env'.sent) == Deployments(sim, env.sent) + [d]
    requires Charged(env.store, env'.store, d, o)
    ensures Balanced(start, sim, env')
  {
    hide Deployments, FundsFollow, Price;
    var paid := Deployments(sim, env.sent);
    assert !Deployed(paid, d.reserveId);
    hide Deployable;
    FundsAfterCommit(start, env.store, env'.store, paid, d, o);
    DeployedGrows(paid, d);
    assert PaidOnce(start, paid + [d]);
    hide PaidOnce, ReservesFollow;
  }

  /** Running a one-command plan that is not a repetition. */
  lemma RunDeployment(sim: Simulator, env: Env, c: Coalition, plan: Plan, step: Atom, now: int)
    requires plan.actionType == DeployReserveGroup && |plan.commands| == 1 && |plan.orders| == 1
    requires plan.commands[0].request.payload.DeployPayload?
    requires !IsDuplicate(plan, ActiveFingerprints(env.store.orders, c))
    requires RefinesSteps(sim, env, c, plan, [step], now)
    ensures var (env', result) := RunPlan(sim, env, c, plan);
      && env'.sent == env.sent + [plan.commands[0].request]
      && result.status == (if sim(env.sent, plan.commands[0].request) then Succeeded else Failed)
      && SameTables(env'.store, if result.status == Succeeded then Perform(env.store, step, now) else env.store)
      && Deployments(sim, env'.sent) ==
         Deployments(sim, env.sent) + if result.status == Succeeded then [plan.commands[0].request.payload] else []
  {
    SentOne(sim, env.sent, plan.commands[0]);
    assert plan.commands == [plan.commands[0]];
    assert [step][..1] == [step] && [step][..0] == [];
    assert PerformAll(env.store, [step], now) == Perform(env.store, step, now);
  }

  /** The one command of a deployment. */
  function DeployRequest(c: Coalition, p: Params): Request
    requires p.Deploy?
  {
    Request(DeployPath, DeployPayload(c, p.reserveId, DeployedId(p.reserveId), p.targetSectorId, p.role))
  }

  lemma DeployKeepsBooks(
      sc: Scenario, start: StoreState, sim: Simulator, env: Env, c: Coalition, actionId: string, p: Params, now: int)
    requires p.Deploy? && OrdersOk(env.store.orders) && Balanced(start, sim, env) && c in env.store.budgets
    requires DeployPlan(sc, env.store, c, actionId, p, now).Some? && Deployable(env.store.reserves[p.reserveId])
    ensures var (env', result) := RunPlan(sim, env, c, DeployPlan(sc, env.store, c, actionId, p, now).value);
      && Balanced(start, sim, env')
      && result.status in {Succeeded, Failed}
      && (result.status == Succeeded <==> sim(env.sent, DeployRequest(c, p)))
      && OneReserveSpent(env.store, env'.store, c, p.reserveId, result.status == Succeeded)
  {
    var plan := DeployPlan(sc, env.store, c, actionId, p, now).value;
    var o := OrderFor(c, p, DeployedId(p.reserveId), None, now);
    var step := Commit(c, p.reserveId, FindSector(sc.sectors, p.targetSectorId).value, o);
    DeployIsNotSkipped(sc, env, c, actionId, p, now);
    DeployRefines(sc, sim, env, c, actionId, p, now);
    RunDeployment(sim, env, c, plan, step, now);
    var (env', result) := RunPlan(sim, env, c, plan);
    SettleDeployment(start, sim, env, env', plan.commands[0].request.payload, step, now, result.status == Succeeded);
  }

  /** What one attempted deployment does to budgets and reserves. */
  ghost predicate OneReserveSpent(st: StoreState, st': StoreState, c: Coalition, r: string, accepted: bool) {
    && c in st.budgets && r in st.reserves
    && st'.budgets == (if accepted then st.budgets[c := st.budgets[c] - st.reserves[r].cost] else st.budgets)
    && st'.reserves ==
       if accepted then st.reserves[r := st.reserves[r].(available := false, status := "committed")] else st.reserves
  }

  lemma SettleDeployment(
      start: StoreState, sim: Simulator, env: Env, env': Env, d: Payload, step: Atom, now: int, accepted: bool)
    requires Balanced(start, sim, env) && d.DeployPayload?
    requires step.Commit? && step.reserveId == d.reserveId && step.coalition == d.coalition
    requires step.order.fingerprint.params.Deploy? && step.order.fingerprint.params.reserveId == d.reserveId
    requires d.reserveId in env.store.reserves && Deployable(env.store.reserves[d.reserveId])
    requires env.store.reserves[d.reserveId].coalition == d.coalition && d.coalition in env.store.budgets
    requires SameTables(env'.store, if accepted then Perform(env.store, step, now) else env.store)
    requires Deployments(sim, env'.sent) == Deployments(sim, env.sent) + if accepted then [d] else []
    ensures Balanced(start, sim, env') && OneReserveSpent(env.store, env'.store, d.coalition, d.reserveId, accepted)
  {
    hide Contains, Deployments, Deployable, PaidOnce, ReservesFollow, FundsFollow, DeployOrdersSpent;
    if accepted {
      assert Charged(env.store, env'.store, d, step.order);
      hide Balanced, Perform;
      BooksAfterCommit(start, sim, env, env', d, step.order);
    } else {
      assert Deployments(sim, env'.sent) == Deployments(sim, env.sent);
      SameBooks(start, env.store, env'.store, Deployments(sim, env.sent));
    }
  }

  lemma SameBooks(start: StoreState, st: StoreState, st': StoreState, paid: seq<Payload>)
    requires SameTables(st', st)
    ensures ReservesFollow(start, st, paid) <==> ReservesFollow(start, st', paid)
    ensures FundsFollow(start, st, paid) <==> FundsFollow(start, st', paid)
    ensures DeployOrdersSpent(st) <==> DeployOrdersSpent(st')
  {
  }
}
