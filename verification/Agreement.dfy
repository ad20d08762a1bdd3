/** Where the store says a group is, and where the simulator was last told to send it. */
module Agreement {
  import opened Domain
  import opened Requests
  import opened StateStore
  import opened Planning
  import opened Engine
  import opened Orders
  import opened Atoms
  import opened Batches
  import opened Runs
  import opened Conflicts
  import opened Validation
  import opened Working
  import opened Effects
  import opened OrderIndependence

  /** The sector a request sends a group to. */
  function SentTo(payload: Payload, g: string): Option<string> {
    match payload
    case MovePayload(_, id, sectorId, _, _, _) => if id == g then Some(sectorId) else None
    case ReinforcePayload(_, id, _, sectorId, _) => if id == g then Some(sectorId) else None
    case DeployPayload(_, _, id, sectorId, _) => if id == g then Some(sectorId) else None
    case PosturePayload(_, _, _) => None
  }

  function Position(st: StoreState, g: string): Option<string> {
    if g in st.active then st.active[g].sectorId else None
  }

  /** The sector of the last accepted request that moves the group; where it started if there was none. */
  function Told(start: StoreState, sim: Simulator, sent: seq<Request>, g: string): Option<string> {
    if sent == [] then Position(start, g)
    else
      var front, last := sent[..|sent| - 1], sent[|sent| - 1];
      if SentTo(last.payload, g).Some? && sim(front, last) then SentTo(last.payload, g) else Told(start, sim, front, g)
  }

  ghost predicate Agrees(start: StoreState, sim: Simulator, env: Env, g: string) {
    Position(env.store, g) == Told(start, sim, env.sent, g)
  }

  ghost predicate AllAgree(start: StoreState, sim: Simulator, env: Env) {
    forall g :: Agrees(start, sim, env, g)
  }

  /** The groups an action puts somewhere, in the order of its commands. */
  function Moved(p: Params): seq<string> {
    if p.Deploy? then [DeployedId(p.reserveId)] else MovementGroups(p)
  }

  function TargetId(sc: Scenario, p: Params): Option<string> {
    if Target(sc, p).Some? then Some(Target(sc, p).value.0.id) else None
  }

  // ------------------------------------------------------------------ steps and commands

  predicate Places(a: Atom, g: string, sectorId: string) {
    ((a.Move? && a.groupId == g) || (a.Commit? && DeployedId(a.reserveId) == g)) && a.sector.id == sectorId
  }

  predicate Performable(st: StoreState, a: Atom) {
    (a.Move? ==> a.groupId in st.active) && (a.Commit? ==> a.reserveId in st.reserves)
  }

  lemma StepPlaces(st: StoreState, a: Atom, g: string, sectorId: string, now: int, h: string)
    requires Places(a, g, sectorId) && Performable(st, a)
    ensures Position(Perform(st, a, now), h) == if h == g then Some(sectorId) else Position(st, h)
  {
    hide Contains, PlacedWorldGroup, DeployedId;
  }

  lemma StaysPerformable(st: StoreState, a: Atom, now: int)
    ensures st.active.Keys <= Perform(st, a, now).active.Keys && st.reserves.Keys <= Perform(st, a, now).reserves.Keys
  {
    hide Contains, PlacedWorldGroup, DeployedId;
  }

  lemma {:induction false} StepsPlace(
      st: StoreState, steps: seq<Atom>, gs: seq<string>, sectorId: string, now: int, n: nat, h: string)
    requires n <= |gs| == |steps|
    requires forall i :: 0 <= i < |gs| ==> Places(steps[i], gs[i], sectorId) && Performable(st, steps[i])
    ensures var st' := PerformAll(st, steps[..n], now);
      && Position(st', h) == (if h in gs[..n] then Some(sectorId) else Position(st, h))
      && st.active.Keys <= st'.active.Keys && st.reserves.Keys <= st'.reserves.Keys
  {
    hide Perform, Places, Position;
    if n > 0 {
      StepsPlace(st, steps, gs, sectorId, now, n - 1, h);
      PrefixStep(steps, n - 1);
      PrefixStep(gs, n - 1);
      var mid := PerformAll(st, steps[..n - 1], now);
      StepPlaces(mid, steps[n - 1], gs[n - 1], sectorId, now, h);
      StaysPerformable(mid, steps[n - 1], now);
      assert PerformAll(st, steps[..n], now) == Perform(mid, steps[n - 1], now);
    } else {
      assert steps[..0] == [] && gs[..0] == [];
    }
  }

  lemma {:induction false} OthersPlaceNothing(st: StoreState, steps: seq<Atom>, now: int, h: string)
    requires forall a <- steps :: a.Order? || a.Stance?
    ensures Position(PerformAll(st, steps, now), h) == Position(st, h)
  {
    if steps != [] {
      OthersPlaceNothing(st, steps[..|steps| - 1], now, h);
    }
  }

  /** The request sends this group there, and no other one anywhere. */
  ghost predicate Tells(payload: Payload, g: string, sectorId: string) {
    forall h :: SentTo(payload, h) == if h == g then Some(sectorId) else None
  }

  lemma {:induction false} SendingTells(
      start: StoreState, sim: Simulator, sent: seq<Request>, commands: seq<Command>, gs: seq<string>, sectorId: string, h: string)
    requires |commands| == |gs| && forall i :: 0 <= i < |gs| ==> Tells(commands[i].request.payload, gs[i], sectorId)
    ensures Told(start, sim, SentAfter(sim, sent, commands), h) ==
            if h in gs[..AcceptedCount(sim, sent, commands)] then Some(sectorId) else Told(start, sim, sent, h)
    decreases |commands|
  {
    if commands != [] {
      var r := commands[0].request;
      assert (sent + [r])[..|sent|] == sent;
      if sim(sent, r) {
        SendingTells(start, sim, sent + [r], commands[1..], gs[1..], sectorId, h);
        var n := AcceptedCount(sim, sent, commands);
        assert gs[..n] == [gs[0]] + gs[1..][..n - 1];
      }
    }
  }

  lemma {:induction false} SendingTellsNothing(
      start: StoreState, sim: Simulator, sent: seq<Request>, commands: seq<Command>, h: string)
    requires forall k <- commands :: SentTo(k.request.payload, h).None?
    ensures Told(start, sim, SentAfter(sim, sent, commands), h) == Told(start, sim, sent, h)
    decreases |commands|
  {
    if commands != [] {
      var r := commands[0].request;
      assert (sent + [r])[..|sent|] == sent && commands[0] in commands;
      if sim(sent, r) {
        SendingTellsNothing(start, sim, sent + [r], commands[1..], h);
      }
    }
  }

  // ------------------------------------------------------------------------- plans

  /** A plan as far as positions go: one command and one step per group moved, all to one sector. */
  ghost predicate MovesTo(st: StoreState, plan: Plan, steps: seq<Atom>, gs: seq<string>, sectorId: string) {
    && plan.actionType != HoldAction && gs != []
    && |plan.commands| == |plan.orders| == |steps| == |gs|
    && forall i :: 0 <= i < |gs| ==>
         && Places(steps[i], gs[i], sectorId) && Performable(st, steps[i])
         && Tells(plan.commands[i].request.payload, gs[i], sectorId)
  }

  ghost predicate MovesNothing(plan: Plan, steps: seq<Atom>) {
    && (forall a <- steps :: a.Order? || a.Stance?)
    && forall k <- plan.commands :: k.request.payload.PosturePayload?
  }

  ghost predicate MovesAsSaid(sc: Scenario, st: StoreState, p: Params, plan: Plan, steps: seq<Atom>) {
    if Moved(p) == [] then MovesNothing(plan, steps)
    else TargetId(sc, p).Some? && MovesTo(st, plan, steps, Moved(p), TargetId(sc, p).value)
  }

  lemma ReinforcementMoves(sc: Scenario, st: StoreState, c: Coalition, id: string, p: Params, now: int)
    requires p.Reinforce? && p.groupIds != [] && BuildPlan(sc, st, c, id, p, now).Some? && Steps(sc, c, p, now).Some?
    ensures MovesAsSaid(sc, st, p, BuildPlan(sc, st, c, id, p, now).value, Steps(sc, c, p, now).value)
  {
    hide ReinforceOrder, ReinforcedGroups, ReinforcedWorldGroups, MovesTo;
    var gs, plan, steps := p.groupIds, BuildPlan(sc, st, c, id, p, now).value, Steps(sc, c, p, now).value;
    var point := FindControlPoint(sc.controlPoints, p.controlPointId).value;
    var sector := FindSector(sc.sectors, point.sectorId).value;
    assert TargetId(sc, p) == Some(sector.id) && Moved(p) == gs;
    assert plan.commands == ReinforceCommands(c, id, point, p, |gs|) && plan.actionType == ReinforceControlPoint;
    assert steps == ReinforceSteps(c, p, sector, point, gs, now) && |plan.orders| == |gs|;
    assert forall g <- gs :: g in st.active;
    hide BuildPlan, Steps, FindControlPoint, FindSector, TargetId, Moved, ReinforceCommands, ReinforceSteps;
    RowsMove(st, plan, steps, c, p, sector, point, id, now);
  }

  lemma RowsMove(
      st: StoreState, plan: Plan, steps: seq<Atom>, c: Coalition, p: Params, sector: Sector, point: ControlPoint, id: string,
      now: int)
    requires p.Reinforce? && p.groupIds != [] && sector.id == point.sectorId && plan.actionType == ReinforceControlPoint
    requires plan.commands == ReinforceCommands(c, id, point, p, |p.groupIds|) && |plan.orders| == |p.groupIds|
    requires steps == ReinforceSteps(c, p, sector, point, p.groupIds, now) && forall g <- p.groupIds :: g in st.active
    ensures MovesTo(st, plan, steps, p.groupIds, sector.id)
  {
    hide ReinforceOrder, ReinforceCommands, ReinforceSteps;
    var gs := p.groupIds;
    forall i | 0 <= i < |gs|
      ensures Places(steps[i], gs[i], sector.id) && Performable(st, steps[i])
      ensures Tells(plan.commands[i].request.payload, gs[i], sector.id)
    {
      assert gs[i] in gs;
    }
  }

  lemma MovementMoves(sc: Scenario, st: StoreState, c: Coalition, id: string, p: Params, now: int)
    requires (p.Reposition? || p.Withdraw?) && BuildPlan(sc, st, c, id, p, now).Some? && Steps(sc, c, p, now).Some?
    ensures MovesAsSaid(sc, st, p, BuildPlan(sc, st, c, id, p, now).value, Steps(sc, c, p, now).value)
  {
    hide OrderFor, PlacedWorldGroup, MovedGroup, DeployedId, ResolveDestination, FindSector;
  }

  lemma DeploymentMoves(sc: Scenario, st: StoreState, c: Coalition, id: string, p: Params, now: int)
    requires p.Deploy? && BuildPlan(sc, st, c, id, p, now).Some? && Steps(sc, c, p, now).Some?
    ensures MovesAsSaid(sc, st, p, BuildPlan(sc, st, c, id, p, now).value, Steps(sc, c, p, now).value)
  {
    hide OrderFor, PlacedWorldGroup, MovedGroup, DeployedId, FindSector;
  }

  lemma PlanMoves(sc: Scenario, st: StoreState, c: Coalition, id: string, p: Params, now: int)
    requires WellFormed(p) && BuildPlan(sc, st, c, id, p, now).Some? && Steps(sc, c, p, now).Some?
    ensures MovesAsSaid(sc, st, p, BuildPlan(sc, st, c, id, p, now).value, Steps(sc, c, p, now).value)
  {
    ReinforceNamesGroups(p);
    hide OrderFor, WellFormed, TargetId, MovesTo, MovementPlan, MoveSteps, DeployPlan, ReinforcePlan, ReinforceSteps;
    match p
    case Reinforce(_, _, _) => ReinforcementMoves(sc, st, c, id, p, now);
    case Reposition(_, _, _) => MovementMoves(sc, st, c, id, p, now);
    case Withdraw(_, _, _) => MovementMoves(sc, st, c, id, p, now);
    case Deploy(_, _, _) => DeploymentMoves(sc, st, c, id, p, now);
    case _ =>
  }

  /** How much of a moving plan takes effect, and what is sent. */
  lemma PlanEffect(sim: Simulator, env: Env, c: Coalition, plan: Plan)
    requires plan.actionType != HoldAction && plan.commands != [] && |plan.orders| == |plan.commands|
    ensures var (env', result) := RunPlan(sim, env, c, plan);
      var skipped := IsDuplicate(plan, ActiveFingerprints(env.store.orders, c));
      && Effective(plan, result) == (if skipped then |plan.orders| else AcceptedCount(sim, env.sent, plan.commands))
      && env'.sent == if skipped then env.sent else SentAfter(sim, env.sent, plan.commands)
  {
    hide ApplyUpdates, IsDuplicate, ActiveFingerprints, EffectiveUpdates, EffectiveOrders;
  }

  /** What an action leaves behind, for every group: a skipped repetition puts its groups at the target
      in the store alone, any other action puts those of the accepted commands there on both sides. */
  lemma ActionOutcome(
      sc: Scenario, start: StoreState, sim: Simulator, env: Env, c: Coalition, id: string, p: Params, now: int, g: string)
    requires WellFormed(p) && OrdersOk(env.store.orders) && BuildPlan(sc, env.store, c, id, p, now).Some?
    ensures var plan := BuildPlan(sc, env.store, c, id, p, now).value;
      var env' := RunPlan(sim, env, c, plan).0;
      var skipped := IsDuplicate(plan, ActiveFingerprints(env.store.orders, c));
      var n := AcceptedCount(sim, env.sent, plan.commands);
      && (Moved(p) != [] ==> |plan.commands| == |Moved(p)| && TargetId(sc, p).Some?)
      && Position(env'.store, g) ==
         (if g in Moved(p) && (skipped || g in Moved(p)[..n]) then TargetId(sc, p) else Position(env.store, g))
      && Told(start, sim, env'.sent, g) ==
         if g in Moved(p) && !skipped && g in Moved(p)[..n] then TargetId(sc, p) else Told(start, sim, env.sent, g)
  {
    hide BuildPlan, Steps, WellFormed, OrdersOk, RunPlan, IsDuplicate, ActiveFingerprints, Effective, TargetId,
      Moved, PerformAll, Position, Told, Places, Performable, Tells;
    ActionRefines(sc, sim, env, c, id, p, now);
    PlanMoves(sc, env.store, c, id, p, now);
    var plan, steps := BuildPlan(sc, env.store, c, id, p, now).value, Steps(sc, c, p, now).value;
    var k := Effective(plan, RunPlan(sim, env, c, plan).1);
    SamePosition(RunPlan(sim, env, c, plan).0.store, PerformAll(env.store, steps[..k], now), g);
    if Moved(p) == [] {
      StandingPlan(start, sim, env, c, plan, steps, now, g);
    } else {
      PlanEffect(sim, env, c, plan);
      StepsPlace(env.store, steps, Moved(p), TargetId(sc, p).value, now, k, g);
      SendingTells(start, sim, env.sent, plan.commands, Moved(p), TargetId(sc, p).value, g);
      assert Moved(p)[..|Moved(p)|] == Moved(p);
    }
  }

  lemma SamePosition(a: StoreState, b: StoreState, g: string)
    requires SameTables(a, b)
    ensures Position(a, g) == Position(b, g)
  {
  }

  /** A plan that moves nothing. */
  lemma StandingPlan(
      start: StoreState, sim: Simulator, env: Env, c: Coalition, plan: Plan, steps: seq<Atom>, now: int, g: string)
    requires MovesNothing(plan, steps) && Effective(plan, RunPlan(sim, env, c, plan).1) <= |steps|
    ensures var (env', result) := RunPlan(sim, env, c, plan);
      && Position(PerformAll(env.store, steps[..Effective(plan, result)], now), g) == Position(env.store, g)
      && Told(start, sim, env'.sent, g) == Told(start, sim, env.sent, g)
  {
    var k := Effective(plan, RunPlan(sim, env, c, plan).1);
    assert forall a <- steps[..k] :: a in steps;
    OthersPlaceNothing(env.store, steps[..k], now, g);
    SendingTellsNothing(start, sim, env.sent, plan.commands, g);
    hide ApplyUpdates, IsDuplicate, ActiveFingerprints, EffectiveUpdates, EffectiveOrders, Effective, PerformAll,
      Told;
  }

  // ------------------------------------------------------------------------- one action

  /** When exactly store and simulator agree on a group after one more action, of whatever kind: if
      the action was skipped as a repetition, when the simulator had last been told its target;
      otherwise when the group's command was accepted, or they agreed before. */
  lemma AgreesIff(
      sc: Scenario, start: StoreState, sim: Simulator, env: Env, c: Coalition, id: string, p: Params, now: int, g: string)
    requires WellFormed(p) && OrdersOk(env.store.orders) && BuildPlan(sc, env.store, c, id, p, now).Some?
    ensures var plan := BuildPlan(sc, env.store, c, id, p, now).value;
      && (g in Moved(p) ==> |plan.commands| == |Moved(p)|)
      && (Agrees(start, sim, RunPlan(sim, env, c, plan).0, g) <==>
            if g !in Moved(p) then Agrees(start, sim, env, g)
            else if IsDuplicate(plan, ActiveFingerprints(env.store.orders, c))
            then Told(start, sim, env.sent, g) == TargetId(sc, p)
            else g in Moved(p)[..AcceptedCount(sim, env.sent, plan.commands)] || Agrees(start, sim, env, g))
  {
    hide BuildPlan, RunPlan, TargetId, IsDuplicate, Told, Position, Moved, WellFormed, OrdersOk, ActiveFingerprints;
    ActionOutcome(sc, start, sim, env, c, id, p, now, g);
  }

  /** A repetition of an active order whose groups are no longer all where it sent them. */
  predicate Stale(sc: Scenario, st: StoreState, c: Coalition, id: string, p: Params, now: int) {
    var plan := BuildPlan(sc, st, c, id, p, now);
    && plan.Some? && IsDuplicate(plan.value, ActiveFingerprints(st.orders, c))
    && exists g <- Moved(p) :: Position(st, g) != TargetId(sc, p)
  }

  /** While store and simulator agree on everything, an action parts them exactly if it is stale,
      whatever the simulator answers; the store alone tells beforehand. */
  lemma ActionKeepsAgreementIff(
      sc: Scenario, start: StoreState, sim: Simulator, env: Env, c: Coalition, id: string, p: Params, now: int)
    requires WellFormed(p) && OrdersOk(env.store.orders) && BuildPlan(sc, env.store, c, id, p, now).Some?
    requires AllAgree(start, sim, env)
    ensures AllAgree(start, sim, RunPlan(sim, env, c, BuildPlan(sc, env.store, c, id, p, now).value).0) <==>
              !Stale(sc, env.store, c, id, p, now)
  {
    hide BuildPlan, RunPlan, TargetId, IsDuplicate, Told, Position, Moved, WellFormed, OrdersOk, ActiveFingerprints;
    var env' := RunPlan(sim, env, c, BuildPlan(sc, env.store, c, id, p, now).value).0;
    forall g ensures Agrees(start, sim, env', g) <==>
                       !(g in Moved(p) && Stale(sc, env.store, c, id, p, now) && Position(env.store, g) != TargetId(sc, p))
    {
      assert Agrees(start, sim, env, g);
      AgreesIff(sc, start, sim, env, c, id, p, now, g);
    }
    if Stale(sc, env.store, c, id, p, now) {
      var g :| g in Moved(p) && Position(env.store, g) != TargetId(sc, p);
      assert !Agrees(start, sim, env', g);
    }
  }

  // ------------------------------------------------------------------- batches and runs

  /** They agree at the start of a batch, between any two of its actions, and at its end. */
  ghost predicate BatchAgrees(
      sc: Scenario, start: StoreState, sim: Simulator, env: Env, c: Coalition, vs: seq<Verdict>, now: int)
  {
    && AllAgree(start, sim, ExecuteBatch(sc, sim, env, c, vs, now).env)
    && (vs != [] ==> BatchAgrees(sc, start, sim, env, c, vs[..|vs| - 1], now))
  }

  /** No action of the batch is stale when its turn comes. */
  predicate BatchFresh(sc: Scenario, sim: Simulator, env: Env, c: Coalition, vs: seq<Verdict>, now: int) {
    vs != [] ==>
      var front, v := vs[..|vs| - 1], vs[|vs| - 1];
      && BatchFresh(sc, sim, env, c, front, now)
      && (Candidate(v) ==> !Stale(sc, ExecuteBatch(sc, sim, env, c, front, now).env.store, c, v.actionId, v.params.value, now))
  }

  lemma {:induction false} BatchAgreesIff(
      sc: Scenario, start: StoreState, sim: Simulator, env: Env, c: Coalition, known: Option<seq<KnownControlPoint>>,
      vs: seq<Verdict>, now: int)
    requires ReferencesResolve(sc) && c in env.store.budgets && OrdersOk(env.store.orders) && AllAgree(start, sim, env)
    requires forall v <- vs :: Candidate(v) ==>
      WellFormed(v.params.value) && Legal(sc, ContextOf(env.store, c, known), v.params.value)
    ensures BatchAgrees(sc, start, sim, env, c, vs, now) <==> BatchFresh(sc, sim, env, c, vs, now)
  {
    hide AllAgree, Stale, RunPlan, BuildPlan, OrdersOk, ReferencesResolve, WellFormed, Grown, RefinesSteps;
    if vs != [] {
      var n := |vs| - 1;
      var front, v := vs[..n], vs[n];
      BatchAgreesIff(sc, start, sim, env, c, known, front, now);
      BatchCompletes(sc, sim, env, c, known, front, now);
      var mid := ExecuteBatch(sc, sim, env, c, front, now).env;
      if Candidate(v) && AllAgree(start, sim, mid) {
        VettedAction(sc, sim, mid, env.store, c, known, v.actionId, v.params.value, now);
        ActionKeepsAgreementIff(sc, start, sim, mid, c, v.actionId, v.params.value, now);
      }
    }
  }

  ghost predicate TurnAgrees(sc: Scenario, start: StoreState, sim: Simulator, env: Env, turn: Turn) {
    if Executes(sc, env.store, turn)
    then BatchAgrees(sc, start, sim, env, turn.coalition, Vets(sc, env.store, turn), turn.now)
    else AllAgree(start, sim, TakeTurn(sc, sim, env, turn))
  }

  predicate TurnFresh(sc: Scenario, sim: Simulator, env: Env, turn: Turn) {
    Executes(sc, env.store, turn) ==> BatchFresh(sc, sim, env, turn.coalition, Vets(sc, env.store, turn), turn.now)
  }

  lemma TurnAgreesIff(sc: Scenario, start: StoreState, sim: Simulator, env: Env, turn: Turn)
    requires ReferencesResolve(sc) && OrdersOk(env.store.orders) && AllAgree(start, sim, env)
    ensures TurnAgrees(sc, start, sim, env, turn) <==> TurnFresh(sc, sim, env, turn)
    ensures TurnAgrees(sc, start, sim, env, turn) ==> AllAgree(start, sim, TakeTurn(sc, sim, env, turn))
  {
    hide ExecuteBatch, Vets, ReferencesResolve, OrdersOk, Told, WellFormed, Legal;
    if Executes(sc, env.store, turn) {
      TurnCompletes(sc, sim, env, turn);
      BatchAgreesIff(sc, start, sim, env, turn.coalition, turn.known, Vets(sc, env.store, turn), turn.now);
    } else {
      forall g ensures Agrees(start, sim, TakeTurn(sc, sim, env, turn), g) {
        assert Agrees(start, sim, env, g);
      }
    }
  }

  /** They agree throughout the run: before and after every action of every batch. */
  ghost predicate RunAgrees(sc: Scenario, start: StoreState, sim: Simulator, turns: seq<Turn>) {
    turns != [] ==>
      var front := turns[..|turns| - 1];
      && RunAgrees(sc, start, sim, front)
      && TurnAgrees(sc, start, sim, Run(sc, sim, Env(start, []), front), turns[|turns| - 1])
  }

  /** No action of the run is ever stale. */
  predicate RunFresh(sc: Scenario, start: StoreState, sim: Simulator, turns: seq<Turn>) {
    turns != [] ==>
      var front := turns[..|turns| - 1];
      && RunFresh(sc, start, sim, front)
      && TurnFresh(sc, sim, Run(sc, sim, Env(start, []), front), turns[|turns| - 1])
  }

  lemma {:induction false} RunStaysAgreed(sc: Scenario, start: StoreState, sim: Simulator, turns: seq<Turn>)
    requires ReferencesResolve(sc) && OrdersOk(start.orders)
    ensures RunAgrees(sc, start, sim, turns) <==> RunFresh(sc, start, sim, turns)
    ensures RunAgrees(sc, start, sim, turns) ==> AllAgree(start, sim, Run(sc, sim, Env(start, []), turns))
  {
    hide TakeTurn, TurnAgrees, TurnFresh, OrdersOk, ReferencesResolve;
    if turns != [] {
      var front := turns[..|turns| - 1];
      RunStaysAgreed(sc, start, sim, front);
      RunKeepsOrders(sc, sim, Env(start, []), front);
      hide AllAgree;
      if RunAgrees(sc, start, sim, front) {
        TurnAgreesIff(sc, start, sim, Run(sc, sim, Env(start, []), front), turns[|turns| - 1]);
      }
    }
  }

  /** Over whole runs of both coalitions, with any payloads and any simulator: store and simulator
      agree on every group throughout, exactly if no executed action is ever a stale repetition. */
  lemma RunAgreesIff(sc: Scenario, sim: Simulator, turns: seq<Turn>)
    requires ReferencesResolve(sc) && CreateRun(sc).Some?
    ensures RunAgrees(sc, CreateRun(sc).value, sim, turns) <==> RunFresh(sc, CreateRun(sc).value, sim, turns)
  {
    RunStaysAgreed(sc, CreateRun(sc).value, sim, turns);
  }
}
