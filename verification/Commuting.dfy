/** Actions as functions on the tables, and when two of them commute. */
module Commuting {
  import opened Domain
  import opened StateStore
  import opened Planning
  import opened Engine
  import opened Atoms

  /** A simulator whose reply depends on path and payload only. */
  ghost predicate Memoryless(sim: Simulator) {
    forall h, h', r :: sim(h, r) == sim(h', r)
  }

  // --------------------------------------------- how many steps of an action run

  /** The requests of an action; they do not depend on the store. */
  function Requested(sc: Scenario, c: Coalition, p: Params): seq<Request> {
    match p
    case Deploy(r, s, role) => [Request(DeployPath, DeployPayload(c, r, DeployedId(r), s, role))]
    case Reposition(g, t, d) => RequestedMove(sc, c, RepositionPath, g, t, d)
    case Withdraw(g, t, d) => RequestedMove(sc, c, WithdrawPath, g, t, d)
    case ChangePosture(g, posture) => [Request(PosturePath, PosturePayload(c, g, posture))]
    case Reinforce(cp, gs, role) =>
      (match FindControlPoint(sc.controlPoints, cp)
       case None => []
       case Some(point) =>
         seq(|gs|, i requires 0 <= i < |gs| => ReinforceCommand(c, "", point, gs[i], role, i).request))
    case _ => []
  }

  function RequestedMove(sc: Scenario, c: Coalition, path: Path, g: string, t: DestinationType, d: string): seq<Request> {
    match ResolveDestination(sc, t, d)
    case None => []
    case Some((sectorId, point)) => [Request(path, MovePayload(c, g, sectorId, point, t, d))]
  }

  /** Requests accepted before the first refusal. */
  function AcceptedRequests(sim: Simulator, rs: seq<Request>): (n: nat)
    ensures n <= |rs|
  {
    if rs == [] || !sim([], rs[0]) then 0 else 1 + AcceptedRequests(sim, rs[1..])
  }

  predicate OnFile(rows: map<string, StandingOrder>, c: Coalition, steps: seq<Atom>) {
    steps != [] && forall a <- steps :: a.order.fingerprint in ActiveFingerprints(rows, c)
  }

  /** How many of the steps take effect, given the orders on file: all of them for a repetition
      or a plan without commands, else one per accepted request. */
  function Count(sim: Simulator, rows: map<string, StandingOrder>, c: Coalition, steps: seq<Atom>, rs: seq<Request>): (n: nat)
    ensures n <= |steps|
  {
    if OnFile(rows, c, steps) || rs == [] then |steps|
    else if AcceptedRequests(sim, rs) <= |steps| then AcceptedRequests(sim, rs)
    else |steps|
  }

  lemma {:induction false} CountMatchesReplies(sim: Simulator, sent: seq<Request>, commands: seq<Command>, rs: seq<Request>)
    requires Memoryless(sim) && |commands| == |rs| && forall i :: 0 <= i < |rs| ==> commands[i].request == rs[i]
    ensures AcceptedCount(sim, sent, commands) == AcceptedRequests(sim, rs)
    decreases |commands|
  {
    if commands != [] {
      assert sim(sent, rs[0]) == sim([], rs[0]);
      CountMatchesReplies(sim, sent + [rs[0]], commands[1..], rs[1..]);
    }
  }

  /** A plan whose requests and orders are those of given steps. */
  ghost predicate PlanFor(plan: Plan, rs: seq<Request>, steps: seq<Atom>) {
    && |plan.commands| == |rs| && (forall i :: 0 <= i < |rs| ==> plan.commands[i].request == rs[i])
    && |plan.orders| == |steps| && (forall i :: 0 <= i < |steps| ==> plan.orders[i] == steps[i].order)
    && (rs != [] ==> |rs| == |steps|)
    && (plan.actionType == HoldAction ==> rs == [] && steps == [])
    && (plan.actionType != HoldAction ==> steps != [])
  }

  lemma ReinforcePlanFor(sc: Scenario, st: StoreState, c: Coalition, actionId: string, p: Params, now: int)
    requires p.Reinforce? && p.groupIds != []
    requires ReinforcePlan(sc, st, c, actionId, p, now).Some? && Steps(sc, c, p, now).Some?
    ensures PlanFor(ReinforcePlan(sc, st, c, actionId, p, now).value, Requested(sc, c, p), Steps(sc, c, p, now).value)
  {
    hide OrderId, PlacedWorldGroup, MovedGroup, ReinforcedGroup, ReinforcedWorldGroup, ReinforcedGroups, ReinforcedWorldGroups,
      ReinforceCommands, ReinforceOrders, ReinforceSteps, OrderFor;
  }

  lemma DeployPlanFor(sc: Scenario, st: StoreState, c: Coalition, actionId: string, p: Params, now: int)
    requires p.Deploy? && DeployPlan(sc, st, c, actionId, p, now).Some? && Steps(sc, c, p, now).Some?
    ensures PlanFor(DeployPlan(sc, st, c, actionId, p, now).value, Requested(sc, c, p), Steps(sc, c, p, now).value)
  {
  }

  lemma MovementPlanFor(
      sc: Scenario, st: StoreState, c: Coalition, actionId: string, p: Params, g: string, t: DestinationType, d: string,
      path: Path, posture: Option<Posture>, now: int)
    requires !p.Hold?
    requires MovementPlan(sc, st, c, actionId, p, g, t, d, path, posture, now).Some?
    requires MoveSteps(sc, c, p, g, t, d, posture, now).Some?
    ensures PlanFor(MovementPlan(sc, st, c, actionId, p, g, t, d, path, posture, now).value,
                    RequestedMove(sc, c, path, g, t, d), MoveSteps(sc, c, p, g, t, d, posture, now).value)
  {
  }

  lemma PlanIsStoreFree(sc: Scenario, st: StoreState, c: Coalition, actionId: string, p: Params, now: int)
    requires BuildPlan(sc, st, c, actionId, p, now).Some? && Steps(sc, c, p, now).Some?
    requires p.Reinforce? ==> p.groupIds != []
    ensures PlanFor(BuildPlan(sc, st, c, actionId, p, now).value, Requested(sc, c, p), Steps(sc, c, p, now).value)
  {
    hide ReinforcePlan, DeployPlan, MovementPlan, MoveSteps, RequestedMove, OrderId;
    match p
    case Reinforce(_, _, _) => ReinforcePlanFor(sc, st, c, actionId, p, now);
    case Deploy(_, _, _) => DeployPlanFor(sc, st, c, actionId, p, now);
    case Reposition(g, t, d) => MovementPlanFor(sc, st, c, actionId, p, g, t, d, RepositionPath, None, now);
    case Withdraw(g, t, d) => MovementPlanFor(sc, st, c, actionId, p, g, t, d, WithdrawPath, Some(Fallback), now);
    case _ =>
  }

  lemma RepetitionIsOnFile(plan: Plan, rs: seq<Request>, steps: seq<Atom>, rows: map<string, StandingOrder>, c: Coalition)
    requires PlanFor(plan, rs, steps)
    ensures IsDuplicate(plan, ActiveFingerprints(rows, c)) <==> OnFile(rows, c, steps)
  {
    var fps := ActiveFingerprints(rows, c);
    if IsDuplicate(plan, fps) {
      forall a | a in steps ensures a.order.fingerprint in fps {
        var i :| 0 <= i < |steps| && steps[i] == a;
        assert plan.orders[i] in plan.orders;
      }
    }
    if OnFile(rows, c, steps) {
      forall o | o in plan.orders ensures o.fingerprint in fps {
        var i :| 0 <= i < |steps| && plan.orders[i] == o;
        assert steps[i] in steps;
      }
    }
  }

  /** The engine's result counts exactly these steps. */
  lemma EffectiveIsCount(sim: Simulator, env: Env, c: Coalition, plan: Plan, rs: seq<Request>, steps: seq<Atom>)
    requires Memoryless(sim) && PlanFor(plan, rs, steps)
    ensures Effective(plan, RunPlan(sim, env, c, plan).1) == Count(sim, env.store.orders, c, steps, rs)
  {
    RepetitionIsOnFile(plan, rs, steps, env.store.orders, c);
    CountMatchesReplies(sim, env.sent, plan.commands, rs);
  }

  // ------------------------------------------------------------ action as function

  /** The tables after an action of coalition c. */
  function Act(sc: Scenario, sim: Simulator, st: StoreState, c: Coalition, p: Params, now: int): StoreState
    requires Steps(sc, c, p, now).Some?
  {
    var steps := Steps(sc, c, p, now).value;
    PerformAll(st, steps[..Count(sim, st.orders, c, steps, Requested(sc, c, p))], now)
  }

  // ---------------------------------------------------------------- commuting steps

  /** The row of the group table a step writes. */
  function StepGroup(a: Atom): Option<string> {
    match a
    case Order(_) => None
    case Commit(_, r, _, _) => Some(DeployedId(r))
    case Move(g, _, _, _, _) => Some(g)
    case Stance(g, _, _) => Some(g)
  }

  /** Steps that write different rows, or a stance and a move that keeps the stance. */
  predicate StepsApart(a: Atom, b: Atom) {
    && a.order.id != b.order.id
    && (a.Commit? && b.Commit? ==> a.reserveId != b.reserveId)
    && (|| StepGroup(a) == None || StepGroup(b) == None || StepGroup(a) != StepGroup(b)
        || (a.Stance? && b.Move? && b.newPosture == None)
        || (b.Stance? && a.Move? && a.newPosture == None))
  }

  // A step writes at most one row per table.

  function Put<V>(rows: map<string, V>, write: Option<(string, V)>): map<string, V> {
    if write.None? then rows else rows[write.value.0 := write.value.1]
  }

  lemma PutsCommute<V>(rows: map<string, V>, v: Option<(string, V)>, w: Option<(string, V)>)
    requires v.None? || w.None? || v.value.0 != w.value.0
    ensures Put(Put(rows, v), w) == Put(Put(rows, w), v)
  {
  }

  function ActiveWrite(st: StoreState, a: Atom): Option<(string, ActiveGroup)> {
    match a
    case Order(_) => None
    case Stance(g, posture, _) =>
      if g !in st.active then None else Some((g, st.active[g].(id := g, posture := posture)))
    case Move(g, sector, point, posture, _) =>
      if g !in st.active then None else Some((g, MovedGroup(st.active[g], g, sector.id, point, posture)))
    case Commit(c, r, sector, _) =>
      if r !in st.reserves then None
      else Some((DeployedId(r), ActiveGroup(DeployedId(r), c, st.reserves[r].groupType, Defensive, Some(sector.id), true,
                                            "ready", None, 0, 0)))
  }

  function WorldWrite(st: StoreState, a: Atom, now: int): Option<(string, WorldGroup)> {
    match a
    case Order(_) => None
    case Stance(_, _, _) => None
    case Move(g, sector, point, _, _) =>
      if g !in st.active then None
      else Some((g, PlacedWorldGroup(sector, g, g, st.active[g].coalition, st.active[g].groupType, point, st.active[g].mobile, now)))
    case Commit(c, r, sector, _) =>
      if r !in st.reserves then None
      else Some((DeployedId(r), PlacedWorldGroup(sector, DeployedId(r), r, c, st.reserves[r].groupType, None, true, now)))
  }

  function ReserveWrite(st: StoreState, a: Atom): Option<(string, ReserveGroup)> {
    if a.Commit? && a.reserveId in st.reserves
    then Some((a.reserveId, st.reserves[a.reserveId].(available := false, status := "committed")))
    else None
  }

  function OrderWrite(st: StoreState, a: Atom): Option<(string, StandingOrder)> {
    match a
    case Order(o) => Some((o.id, o))
    case Stance(g, _, o) => if g !in st.active then None else Some((o.id, o))
    case Move(g, _, _, _, o) => if g !in st.active then None else Some((o.id, o))
    case Commit(_, r, _, o) => if r !in st.reserves then None else Some((o.id, o))
  }

  function Charge(st: StoreState, a: Atom): int {
    if a.Commit? && a.reserveId in st.reserves then st.reserves[a.reserveId].cost else 0
  }

  function Pay(budgets: map<Coalition, int>, a: Atom, amount: int): map<Coalition, int> {
    if a.Commit? && a.coalition in budgets then budgets[a.coalition := budgets[a.coalition] - amount] else budgets
  }

  lemma PaymentsCommute(budgets: map<Coalition, int>, a: Atom, x: int, b: Atom, y: int)
    ensures Pay(Pay(budgets, a, x), b, y) == Pay(Pay(budgets, b, y), a, x)
  {
  }

  /** Performing a step, table by table. */
  lemma PerformByTable(st: StoreState, a: Atom, now: int)
    ensures Perform(st, a, now) == StoreState(
      Pay(st.budgets, a, Charge(st, a)), Put(st.reserves, ReserveWrite(st, a)), Put(st.active, ActiveWrite(st, a)),
      Put(st.world, WorldWrite(st, a, now)), Put(st.orders, OrderWrite(st, a)), st.log)
  {
    hide Contains, MovedGroup, PlacedWorldGroup;
    assert a.Commit? && a.reserveId !in st.reserves && a.coalition in st.budgets ==>
      st.budgets[a.coalition := st.budgets[a.coalition]] == st.budgets;
  }

  /** What a step writes is not changed by a step on other rows. */
  lemma WritesUnaffected(st: StoreState, a: Atom, at: int, b: Atom, bt: int)
    requires StepsApart(a, b)
    ensures var st' := Perform(st, b, bt);
      && WorldWrite(st', a, at) == WorldWrite(st, a, at)
      && ReserveWrite(st', a) == ReserveWrite(st, a)
      && OrderWrite(st', a) == OrderWrite(st, a)
      && Charge(st', a) == Charge(st, a)
      && (StepGroup(a) != StepGroup(b) || StepGroup(a).None? ==> ActiveWrite(st', a) == ActiveWrite(st, a))
  {
    hide Contains, PlacedWorldGroup, DeployedId;
    PerformByTable(st, b, bt);
    if a.Commit? && b.Commit? {
      DeployedIdInjective(a.reserveId, b.reserveId);
    }
  }

  lemma StanceAndMoveCommute(st: StoreState, a: Atom, at: int, b: Atom, bt: int)
    requires StepsApart(a, b) && StepGroup(a) == StepGroup(b) && StepGroup(a).Some?
    requires a.Stance? && b.Move?
    ensures Put(Put(st.active, ActiveWrite(st, a)), ActiveWrite(Perform(st, a, at), b)) ==
            Put(Put(st.active, ActiveWrite(st, b)), ActiveWrite(Perform(st, b, bt), a))
  {
    hide Contains, PlacedWorldGroup;
    PerformByTable(st, a, at);
    PerformByTable(st, b, bt);
  }

  lemma WriteKeys(st: StoreState, a: Atom, now: int)
    ensures ActiveWrite(st, a).Some? ==> StepGroup(a) == Some(ActiveWrite(st, a).value.0)
    ensures WorldWrite(st, a, now).Some? ==> StepGroup(a) == Some(WorldWrite(st, a, now).value.0) && !a.Stance?
    ensures OrderWrite(st, a).Some? ==> OrderWrite(st, a).value.0 == a.order.id
    ensures ReserveWrite(st, a).Some? ==> a.Commit? && ReserveWrite(st, a).value.0 == a.reserveId
  {
  }

  /** Steps that are apart commute, also when they are taken at different times. */
  lemma StepsCommute(st: StoreState, a: Atom, at: int, b: Atom, bt: int)
    requires StepsApart(a, b)
    ensures Perform(Perform(st, a, at), b, bt) == Perform(Perform(st, b, bt), a, at)
  {
    WritesUnaffected(st, a, at, b, bt);
    WritesUnaffected(st, b, bt, a, at);
    hide Perform, ActiveWrite, WorldWrite, ReserveWrite, OrderWrite, Charge, Pay, Put;
    PerformByTable(st, a, at);
    PerformByTable(st, b, bt);
    PerformByTable(Perform(st, a, at), b, bt);
    PerformByTable(Perform(st, b, bt), a, at);
    WriteKeys(st, a, at);
    WriteKeys(st, b, bt);
    PaymentsCommute(st.budgets, a, Charge(st, a), b, Charge(st, b));
    PutsCommute(st.orders, OrderWrite(st, a), OrderWrite(st, b));
    PutsCommute(st.reserves, ReserveWrite(st, a), ReserveWrite(st, b));
    PutsCommute(st.world, WorldWrite(st, a, at), WorldWrite(st, b, bt));
    if StepGroup(a).None? || StepGroup(a) != StepGroup(b) {
      PutsCommute(st.active, ActiveWrite(st, a), ActiveWrite(st, b));
    } else if a.Stance? {
      StanceAndMoveCommute(st, a, at, b, bt);
    } else {
      StanceAndMoveCommute(st, b, bt, a, at);
    }
  }

  lemma {:induction false} StepPassesSteps(st: StoreState, a: Atom, at: int, bs: seq<Atom>, bt: int)
    requires forall b <- bs :: StepsApart(a, b)
    ensures Perform(PerformAll(st, bs, bt), a, at) == PerformAll(Perform(st, a, at), bs, bt)
  {
    if bs != [] {
      var front, last := bs[..|bs| - 1], bs[|bs| - 1];
      StepPassesSteps(st, a, at, front, bt);
      StepsCommute(PerformAll(st, front, bt), a, at, last, bt);
    }
  }

  lemma {:induction false} StepListsCommute(st: StoreState, xs: seq<Atom>, ys: seq<Atom>, now: int)
    requires forall x <- xs :: forall y <- ys :: StepsApart(x, y)
    ensures PerformAll(PerformAll(st, xs, now), ys, now) == PerformAll(PerformAll(st, ys, now), xs, now)
  {
    if xs != [] {
      var front, last := xs[..|xs| - 1], xs[|xs| - 1];
      assert last in xs && forall x <- front :: x in xs;
      StepListsCommute(st, front, ys, now);
      StepPassesSteps(PerformAll(st, front, now), last, now, ys, now);
    }
  }
}
