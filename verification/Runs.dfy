/** Whole runs: any sequence of ingests and command batches of both coalitions, with any
    payloads, any observed pictures and any simulator. */
module Runs {
  import opened Domain
  import opened Requests
  import opened Working
  import opened Conflicts
  import opened StateStore
  import opened Engine
  import opened Orders
  import opened Batches

  /** An ingest may leave any world truth behind; a command turn carries whatever the model
      answered and whatever control points its latest observation listed. */
  datatype Turn =
    | Ingest(world: map<string, WorldGroup>)
    | Command(coalition: Coalition, known: Option<seq<KnownControlPoint>>, payload: Json, now: int)

  function ActionIds(vs: seq<Verdict>): seq<string> {
    seq(|vs|, i requires 0 <= i < |vs| => vs[i].actionId)
  }

  /** A validation batch is stored under (batch, action id) before it is executed, so a
      payload that repeats an id raises there and executes nothing. */
  predicate Storable(vs: seq<Verdict>) {
    Distinct(ActionIds(vs))
  }

  function Vets(sc: Scenario, st: StoreState, turn: Turn): seq<Verdict>
    requires turn.Command? && turn.coalition in st.budgets
  {
    ValidateBatch(sc, ContextOf(st, turn.coalition, turn.known), ActionList(turn.payload))
  }

  /** Whether a turn gets as far as executing a batch. */
  predicate Executes(sc: Scenario, st: StoreState, turn: Turn) {
    turn.Command? && turn.coalition in st.budgets && ExtractActions(turn.payload).Some? && Storable(Vets(sc, st, turn))
  }

  function TakeTurn(sc: Scenario, sim: Simulator, env: Env, turn: Turn): Env {
    if turn.Ingest? then env.(store := env.store.(world := turn.world))
    else if !Executes(sc, env.store, turn) then env
    else ExecuteBatch(sc, sim, env, turn.coalition, Vets(sc, env.store, turn), turn.now).env
  }

  function Run(sc: Scenario, sim: Simulator, env: Env, turns: seq<Turn>): Env {
    if turns == [] then env
    else TakeTurn(sc, sim, Run(sc, sim, env, turns[..|turns| - 1]), turns[|turns| - 1])
  }

  function DeclaredIds(payload: Json): seq<string> {
    var actions := ActionList(payload);
    seq(|actions|, i requires 0 <= i < |actions| => ReadActionId(actions[i]))
  }

  lemma VettedIds(sc: Scenario, st: StoreState, turn: Turn)
    requires turn.Command? && turn.coalition in st.budgets
    ensures ActionIds(Vets(sc, st, turn)) == DeclaredIds(turn.payload)
  {
    var ctx, actions := ContextOf(st, turn.coalition, turn.known), ActionList(turn.payload);
    assert forall i :: 0 <= i < |actions| ==> Validated(actions[i], sc, ctx).actionId == ReadActionId(actions[i]);
    hide Validated, Kept, ReadActionId;
  }

  /** When exactly a turn gets as far as executing: its payload holds a list of actions, and no
      two of them declare the same id or leave it out. */
  lemma ExecutesIff(sc: Scenario, st: StoreState, turn: Turn)
    requires turn.Command? && turn.coalition in st.budgets
    ensures Executes(sc, st, turn) <==> ExtractActions(turn.payload).Some? && Distinct(DeclaredIds(turn.payload))
  {
    VettedIds(sc, st, turn);
    hide Vets, DeclaredIds;
  }

  /** Two actions without a usable id share "unknown_action", so the whole payload comes to nothing,
      whatever else it holds. */
  lemma TwoNamelessActionsStopTurn(
      sc: Scenario, sim: Simulator, env: Env, turn: Turn, items: seq<Json>, i: nat, j: nat)
    requires turn.Command? && turn.payload == JArray(items) && i < j < |items|
    requires !IsText(DeclaredId(AsRawAction(items[i]))) && !IsText(DeclaredId(AsRawAction(items[j])))
    ensures TakeTurn(sc, sim, env, turn) == env
  {
    hide DeclaredId, Vets;
    if turn.coalition in env.store.budgets {
      ExecutesIff(sc, env.store, turn);
      var actions := ActionList(turn.payload);
      assert actions[i] == AsRawAction(items[i]) && actions[j] == AsRawAction(items[j]);
      assert DeclaredIds(turn.payload)[i] == DeclaredIds(turn.payload)[j];
    }
  }

  /** The live counterpart of a command turn on the store and simulator objects. */
  method TakeCommandTurn(engine: ExecutionEngine, turn: Turn) returns (executed: bool)
    requires turn.Command?
    modifies engine.store, engine.olympus
    ensures executed <==> Executes(engine.scenario, old(engine.store.State()), turn)
    ensures engine.Now() == TakeTurn(engine.scenario, engine.olympus.reply, old(engine.Now()), turn)
  {
    var actions := ExtractActions(turn.payload);
    if turn.coalition !in engine.store.budgets || actions.None? {
      return false;
    }
    var verdicts := ValidatePayload(
      engine.scenario, ContextOf(engine.store.State(), turn.coalition, turn.known), actions.value);
    if !Storable(verdicts) {
      return false;
    }
    var _, _ := engine.ExecuteValidationBatch(turn.coalition, verdicts, turn.now);
    executed := true;
  }

  /** The batch of any turn, on any well-kept store, runs to completion. */
  lemma TurnCompletes(sc: Scenario, sim: Simulator, env: Env, turn: Turn)
    requires ReferencesResolve(sc) && OrdersOk(env.store.orders)
    requires turn.Command? && turn.coalition in env.store.budgets
    ensures Vetted(sc, ContextOf(env.store, turn.coalition, turn.known), Vets(sc, env.store, turn))
    ensures ExecuteBatch(sc, sim, env, turn.coalition, Vets(sc, env.store, turn), turn.now).Completed?
    ensures var env' := ExecuteBatch(sc, sim, env, turn.coalition, Vets(sc, env.store, turn), turn.now).env;
      Grown(env.store, env'.store) && OrdersOk(env'.store.orders)
  {
    ValidatedBatchIsVetted(sc, ContextOf(env.store, turn.coalition, turn.known), ActionList(turn.payload));
    BatchCompletes(sc, sim, env, turn.coalition, turn.known, Vets(sc, env.store, turn), turn.now);
  }

  lemma TurnKeepsOrders(sc: Scenario, sim: Simulator, env: Env, turn: Turn)
    requires ReferencesResolve(sc) && OrdersOk(env.store.orders)
    ensures OrdersOk(TakeTurn(sc, sim, env, turn).store.orders)
    ensures Grown(env.store, TakeTurn(sc, sim, env, turn).store)
  {
    if turn.Command? && turn.coalition in env.store.budgets {
      TurnCompletes(sc, sim, env, turn);
    }
  }

  lemma {:induction false} RunKeepsOrders(sc: Scenario, sim: Simulator, env: Env, turns: seq<Turn>)
    requires ReferencesResolve(sc) && OrdersOk(env.store.orders)
    ensures OrdersOk(Run(sc, sim, env, turns).store.orders)
  {
    if turns != [] {
      RunKeepsOrders(sc, sim, env, turns[..|turns| - 1]);
      TurnKeepsOrders(sc, sim, Run(sc, sim, env, turns[..|turns| - 1]), turns[|turns| - 1]);
    }
  }

  /** Accepted implies executable, over whole runs: from a scenario whose references resolve,
      whatever happened before, no batch of any coalition is ever aborted by a failed lookup. */
  lemma NoBatchEverAborts(sc: Scenario, sim: Simulator, turns: seq<Turn>, turn: Turn)
    requires ReferencesResolve(sc) && CreateRun(sc).Some?
    requires turn.Command?
    ensures var env := Run(sc, sim, Env(CreateRun(sc).value, []), turns);
      turn.coalition in env.store.budgets ==>
        ExecuteBatch(sc, sim, env, turn.coalition, Vets(sc, env.store, turn), turn.now).Completed?
  {
    var start := Env(CreateRun(sc).value, []);
    RunKeepsOrders(sc, sim, start, turns);
    var env := Run(sc, sim, start, turns);
    if turn.coalition in env.store.budgets {
      TurnCompletes(sc, sim, env, turn);
    }
  }

  /** In every reachable store two active orders on the same subject are the same row. */
  lemma ReachableOrdersAreUnique(sc: Scenario, sim: Simulator, turns: seq<Turn>, i: string, j: string)
    requires ReferencesResolve(sc) && CreateRun(sc).Some?
    requires var orders := Run(sc, sim, Env(CreateRun(sc).value, []), turns).store.orders;
      i in orders && j in orders && orders[i].active && orders[j].active && SameSubject(orders[i], orders[j])
    ensures i == j
  {
    var start := Env(CreateRun(sc).value, []);
    RunKeepsOrders(sc, sim, start, turns);
    OneOrderPerSubject(Run(sc, sim, start, turns).store.orders, i, j);
  }
}
