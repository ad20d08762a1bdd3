/** Executing a validated batch: commands go out until the first refusal, plans whose orders
    are already active are skipped, and what took effect is written to the store. */
module Engine {
  import opened Domain
  import opened StateStore
  import opened Planning
  import opened Working
  import opened Conflicts

  /** The simulator is arbitrary: its reply may depend on everything it was ever sent. */
  type Simulator = (seq<Request>, Request) -> bool

  ghost predicate AcceptsAll(sim: Simulator) {
    forall h, r :: sim(h, r)
  }

  datatype ExecutionResult = ExecutionResult(
    actionId: string, actionType: ActionType, status: ExecutionStatus, commandCount: nat,
    resourceDelta: int, orderIds: seq<string>, entities: seq<string>, applied: seq<Command>)

  datatype Env = Env(store: StoreState, sent: seq<Request>)

  datatype BatchOutcome =
    | Completed(env: Env, results: seq<ExecutionResult>)
    | Aborted(env: Env, results: seq<ExecutionResult>)

  // ------------------------------------------------------------ sending commands

  function AcceptedCount(sim: Simulator, sent: seq<Request>, commands: seq<Command>): (n: nat)
    ensures n <= |commands|
    decreases |commands|
  {
    if commands == [] || !sim(sent, commands[0].request) then 0
    else 1 + AcceptedCount(sim, sent + [commands[0].request], commands[1..])
  }

  function SentAfter(sim: Simulator, sent: seq<Request>, commands: seq<Command>): seq<Request>
    decreases |commands|
  {
    if commands == [] then sent
    else
      var sent' := sent + [commands[0].request];
      if sim(sent, commands[0].request) then SentAfter(sim, sent', commands[1..]) else sent'
  }

  // -------------------------------------------------------------------- results

  function OrderIds(orders: seq<StandingOrder>): seq<string> {
    seq(|orders|, i requires 0 <= i < |orders| => orders[i].id)
  }

  function CommandGroups(commands: seq<Command>): set<string> {
    set command <- commands | PayloadGroup(command.request.payload).Some? :: PayloadGroup(command.request.payload).value
  }

  /** The outcome of a plan of which the simulator took the first `accepted` commands. */
  function PlanResult(plan: Plan, accepted: nat): ExecutionResult
    requires accepted <= |plan.commands|
  {
    if plan.actionType == HoldAction then
      ExecutionResult(plan.actionId, plan.actionType, NoChange, 0, 0, [], [], [])
    else if plan.orders != [] && plan.commands == [] then
      ExecutionResult(plan.actionId, plan.actionType, Succeeded, 0, plan.resourceDelta, OrderIds(plan.orders), plan.entities, [])
    else if accepted == 0 then
      ExecutionResult(plan.actionId, plan.actionType, Failed, 0, 0, [], [], [])
    else
      ExecutionResult(
        plan.actionId, plan.actionType, if accepted < |plan.commands| then PartiallySucceeded else Succeeded, accepted,
        plan.resourceDelta, OrderIds(plan.orders),
        if accepted < |plan.commands| && plan.actionType == ReinforceControlPoint && accepted <= |plan.entities|
        then plan.entities[..accepted] else plan.entities,
        plan.commands[..accepted])
  }

  predicate IsDuplicate(plan: Plan, active: set<Fingerprint>) {
    plan.orders != [] && forall o <- plan.orders :: o.fingerprint in active
  }

  function DuplicateResult(plan: Plan): ExecutionResult {
    ExecutionResult(plan.actionId, plan.actionType, NoChange, 0, 0, OrderIds(plan.orders), plan.entities, [])
  }

  function OnlyActive(rows: seq<ActiveGroup>, ids: set<string>): seq<ActiveGroup> {
    if rows == [] then []
    else OnlyActive(rows[..|rows| - 1], ids) + if rows[|rows| - 1].id in ids then [rows[|rows| - 1]] else []
  }

  function OnlyWorld(rows: seq<WorldGroup>, ids: set<string>): seq<WorldGroup> {
    if rows == [] then []
    else OnlyWorld(rows[..|rows| - 1], ids) + if rows[|rows| - 1].id in ids then [rows[|rows| - 1]] else []
  }

  function OnlyOrders(rows: seq<StandingOrder>, ids: set<string>): seq<StandingOrder> {
    if rows == [] then []
    else OnlyOrders(rows[..|rows| - 1], ids)
         + if rows[|rows| - 1].entityId.Some? && rows[|rows| - 1].entityId.value in ids then [rows[|rows| - 1]] else []
  }

  function EffectiveUpdates(plan: Plan, result: ExecutionResult): StateUpdates {
    if result.status != PartiallySucceeded || plan.actionType != ReinforceControlPoint then plan.updates
    else
      var ids := CommandGroups(result.applied);
      StateUpdates(0, [], OnlyActive(plan.updates.active, ids), OnlyWorld(plan.updates.world, ids))
  }

  function EffectiveOrders(plan: Plan, result: ExecutionResult): seq<StandingOrder> {
    if result.status != PartiallySucceeded then plan.orders
    else OnlyOrders(plan.orders, CommandGroups(result.applied))
  }

  // -------------------------------------------------------------------- actions

  /** Runs one plan in an environment. */
  function RunPlan(sim: Simulator, env: Env, c: Coalition, plan: Plan): (Env, ExecutionResult) {
    var duplicate := IsDuplicate(plan, ActiveFingerprints(env.store.orders, c));
    var result :=
      if duplicate then DuplicateResult(plan) else PlanResult(plan, AcceptedCount(sim, env.sent, plan.commands));
    var store := ApplyUpdates(env.store, c, plan.actionId, plan.actionType, result.status,
                              EffectiveUpdates(plan, result), EffectiveOrders(plan, result));
    (Env(store, if duplicate then env.sent else SentAfter(sim, env.sent, plan.commands)), result)
  }

  function ExecuteAction(
      sc: Scenario, sim: Simulator, env: Env, c: Coalition, actionId: string, p: Params, now: int): Option<(Env, ExecutionResult)>
  {
    match BuildPlan(sc, env.store, c, actionId, p, now)
    case None => None
    case Some(plan) => Some(RunPlan(sim, env, c, plan))
  }

  function ExecuteBatch(
      sc: Scenario, sim: Simulator, env: Env, c: Coalition, vs: seq<Verdict>, now: int): BatchOutcome
  {
    if vs == [] then Completed(env, [])
    else
      var before := ExecuteBatch(sc, sim, env, c, vs[..|vs| - 1], now);
      var v := vs[|vs| - 1];
      if before.Aborted? || !Candidate(v) then before
      else
        match ExecuteAction(sc, sim, before.env, c, v.actionId, v.params.value, now)
        case None => Aborted(before.env, before.results)
        case Some((env', result)) => Completed(env', before.results + [result])
  }

  function ClassifyBatch(results: seq<ExecutionResult>): ExecutionStatus {
    var statuses := set r <- results :: r.status;
    if statuses <= {NoChange} then NoChange
    else if statuses == {Failed} then Failed
    else if Failed in statuses || PartiallySucceeded in statuses then PartiallySucceeded
    else Succeeded
  }

  // ------------------------------------------------------------ the live objects

  class Olympus {
    const reply: Simulator
    var sent: seq<Request>

    constructor (reply: Simulator)
      ensures this.reply == reply && sent == []
    {
      this.reply := reply;
      sent := [];
    }

    method Send(request: Request) returns (accepted: bool)
      modifies this
      ensures accepted == reply(old(sent), request) && sent == old(sent) + [request]
    {
      accepted := reply(sent, request);
      sent := sent + [request];
    }
  }

  class ExecutionEngine {
    const scenario: Scenario
    const store: Store
    const olympus: Olympus

    constructor (scenario: Scenario, store: Store, olympus: Olympus)
      ensures this.scenario == scenario && this.store == store && this.olympus == olympus
    {
      this.scenario, this.store, this.olympus := scenario, store, olympus;
    }

    function Now(): Env
      reads store, olympus
    {
      Env(store.State(), olympus.sent)
    }

    method BuildExecutionPlan(c: Coalition, actionId: string, p: Params, now: int) returns (plan: Option<Plan>)
      ensures plan == BuildPlan(scenario, store.State(), c, actionId, p, now)
    {
      if p.Reinforce? {
        plan := BuildReinforcePlan(scenario, store.State(), c, actionId, p, now);
      } else {
        plan := BuildPlan(scenario, store.State(), c, actionId, p, now);
      }
    }

    /** Sends the commands of a plan until one is refused. */
    method ExecutePlan(plan: Plan) returns (result: ExecutionResult)
      modifies olympus
      ensures result == PlanResult(plan, AcceptedCount(olympus.reply, old(olympus.sent), plan.commands))
      ensures plan.actionType == HoldAction ==> olympus.sent == old(olympus.sent)
      ensures plan.actionType != HoldAction ==>
        olympus.sent == SentAfter(olympus.reply, old(olympus.sent), plan.commands)
    {
      if plan.actionType == HoldAction {
        return PlanResult(plan, 0);
      }
      if plan.orders != [] && plan.commands == [] {
        return PlanResult(plan, 0);
      }
      var applied := 0;
      assert plan.commands[0..] == plan.commands;
      while applied < |plan.commands|
        invariant 0 <= applied <= |plan.commands|
        invariant AcceptedCount(olympus.reply, old(olympus.sent), plan.commands) ==
                  applied + AcceptedCount(olympus.reply, olympus.sent, plan.commands[applied..])
        invariant SentAfter(olympus.reply, old(olympus.sent), plan.commands) ==
                  SentAfter(olympus.reply, olympus.sent, plan.commands[applied..])
      {
        assert plan.commands[applied..][1..] == plan.commands[applied + 1..];
        var accepted := olympus.Send(plan.commands[applied].request);
        if !accepted {
          break;
        }
        applied := applied + 1;
      }
      result := PlanResult(plan, applied);
    }

    /** One turn of the batch loop.  `known` is the engine's own copy of the active orders. */
    method ExecuteOne(c: Coalition, actionId: string, p: Params, now: int, known: set<Fingerprint>)
        returns (result: Option<ExecutionResult>, known': set<Fingerprint>)
      requires known == ActiveFingerprints(store.orders, c)
      modifies store, olympus
      ensures known' == ActiveFingerprints(store.orders, c)
      ensures match ExecuteAction(scenario, olympus.reply, old(Now()), c, actionId, p, now)
              case None => result.None? && Now() == old(Now())
              case Some((env, r)) => result == Some(r) && Now() == env
    {
      hide BuildPlan, PlanResult, DuplicateResult, EffectiveUpdates, EffectiveOrders, IsDuplicate;
      known' := known;
      var built := BuildExecutionPlan(c, actionId, p, now);
      if built.None? {
        return None, known;
      }
      var plan := built.value;
      HoldSendsNothing(scenario, store.State(), c, actionId, p, now);
      var r: ExecutionResult;
      if IsDuplicate(plan, known) {
        r := DuplicateResult(plan);
      } else {
        r := ExecutePlan(plan);
      }
      result := Some(r);
      if r.status in {Succeeded, PartiallySucceeded, NoChange} {
        var orders := EffectiveOrders(plan, r);
        store.ApplyExecutionStateUpdates(c, plan.actionId, plan.actionType, r.status, EffectiveUpdates(plan, r), orders);
        if orders != [] {
          known' := ActiveFingerprints(store.orders, c);
        }
      }
    }

    method ExecuteValidationBatch(c: Coalition, vs: seq<Verdict>, now: int)
        returns (aborted: bool, results: seq<ExecutionResult>)
      modifies store, olympus
      ensures ExecuteBatch(scenario, olympus.reply, old(Now()), c, vs, now) ==
              if aborted then Aborted(Now(), results) else Completed(Now(), results)
    {
      aborted, results := false, [];
      ghost var start := Now();
      var known := ActiveFingerprints(store.orders, c);
      for i := 0 to |vs|
        invariant known == ActiveFingerprints(store.orders, c)
        invariant ExecuteBatch(scenario, olympus.reply, start, c, vs[..i], now) == Completed(Now(), results)
      {
        PrefixStep(vs, i);
        if Candidate(vs[i]) {
          var result;
          result, known := ExecuteOne(c, vs[i].actionId, vs[i].params.value, now, known);
          if result.None? {
            AbortIsFinal(scenario, olympus.reply, start, c, vs, now, i + 1);
            return true, results;
          }
          results := results + [result.value];
        }
      }
      assert vs[..|vs|] == vs;
    }
  }

  lemma HoldSendsNothing(sc: Scenario, st: StoreState, c: Coalition, actionId: string, p: Params, now: int)
    ensures var plan := BuildPlan(sc, st, c, actionId, p, now);
      plan.Some? ==>
        && plan.value.actionId == actionId && plan.value.actionType == TypeOf(p)
        && (plan.value.actionType == HoldAction ==> plan.value.commands == [] && plan.value.orders == [])
  {
  }

  lemma {:induction false} AbortIsFinal(
      sc: Scenario, sim: Simulator, env: Env, c: Coalition, vs: seq<Verdict>, now: int, n: nat)
    requires n <= |vs| && ExecuteBatch(sc, sim, env, c, vs[..n], now).Aborted?
    ensures ExecuteBatch(sc, sim, env, c, vs, now) == ExecuteBatch(sc, sim, env, c, vs[..n], now)
    decreases |vs|
  {
    if n < |vs| {
      assert vs[..|vs| - 1][..n] == vs[..n];
      AbortIsFinal(sc, sim, env, c, vs[..|vs| - 1], now, n);
    } else {
      assert vs[..n] == vs;
    }
  }

  // ------------------------------------------------------------- what a status says

  predicate AllHave(results: seq<ExecutionResult>, status: ExecutionStatus) {
    forall r <- results :: r.status == status
  }

  lemma BatchStatusMeaning(results: seq<ExecutionResult>)
    ensures ClassifyBatch(results) == NoChange <==> AllHave(results, NoChange)
    ensures ClassifyBatch(results) == Failed <==> results != [] && AllHave(results, Failed)
    ensures ClassifyBatch(results) == Succeeded <==>
      !AllHave(results, NoChange) && forall r <- results :: r.status in {Succeeded, NoChange}
  {
    var statuses := set r <- results :: r.status;
    assert forall r <- results :: r.status in statuses;
    if results != [] {
      assert results[0] in results;
    }
    if !AllHave(results, NoChange) {
      var r :| r in results && r.status != NoChange;
      assert r.status in statuses;
    }
  }

  lemma FailedPlanChangesNothing(sim: Simulator, env: Env, c: Coalition, plan: Plan)
    ensures RunPlan(sim, env, c, plan).1.status == Failed ==> RunPlan(sim, env, c, plan).0.store == env.store
    ensures RunPlan(sim, env, c, plan).1.status == NoChange && (plan.actionType == HoldAction ==> plan.commands == []) ==>
      RunPlan(sim, env, c, plan).0.sent == env.sent
  {
    hide EffectiveUpdates, EffectiveOrders, WriteTables;
  }

  /** A batch reported as failed left the store exactly as it was, and one reported as no change
      sent the simulator nothing. */
  lemma {:induction false} BatchStatusIsHonest(
      sc: Scenario, sim: Simulator, env: Env, c: Coalition, vs: seq<Verdict>, now: int)
    ensures var outcome := ExecuteBatch(sc, sim, env, c, vs, now);
      && (AllHave(outcome.results, Failed) ==> outcome.env.store == env.store)
      && (AllHave(outcome.results, NoChange) ==> outcome.env.sent == env.sent)
    ensures var outcome := ExecuteBatch(sc, sim, env, c, vs, now);
      && (ClassifyBatch(outcome.results) == Failed ==> outcome.env.store == env.store)
      && (ClassifyBatch(outcome.results) == NoChange ==> outcome.env.sent == env.sent)
  {
    BatchStatusMeaning(ExecuteBatch(sc, sim, env, c, vs, now).results);
    hide BuildPlan, RunPlan, ClassifyBatch;
    if vs != [] {
      var front, v := vs[..|vs| - 1], vs[|vs| - 1];
      BatchStatusIsHonest(sc, sim, env, c, front, now);
      var before := ExecuteBatch(sc, sim, env, c, front, now);
      if before.Completed? && Candidate(v) {
        var built := BuildPlan(sc, before.env.store, c, v.actionId, v.params.value, now);
        if built.Some? {
          HoldSendsNothing(sc, before.env.store, c, v.actionId, v.params.value, now);
          FailedPlanChangesNothing(sim, before.env, c, built.value);
          var results := ExecuteBatch(sc, sim, env, c, vs, now).results;
          assert results == before.results + [RunPlan(sim, before.env, c, built.value).1];
          assert forall r <- before.results :: r in results;
        }
      }
    }
  }
}
