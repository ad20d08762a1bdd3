/** Three payloads after which store and simulator disagree: there, back, and there again. */
module ThereAndBack {
  import opened Domain
  import opened Requests
  import opened Validation
  import opened StateStore
  import opened Planning
  import opened Engine
  import opened Orders
  import opened Atoms
  import opened Effects
  import opened Runs
  import opened Agreement
  import opened Batches
  import opened Payloads
  import opened ScenarioRoundTrip

  const BASE := Sector("base", "Base", "rear", ["post"], [], None, None, 1.0)
  const POST := Sector("post", "Post", "front", ["base"], [], None, None, 1.0)
  const HILL := ControlPoint("hill", "Hill", "post", "hill", None, "high", None, None)
  const SCOUT := ActiveGroup("scout", Red, "armor", Screening, Some("base"), true, "ready", None, 0, 0)

  /** Two neighbouring sectors and one group of Red's. */
  const PATROL := Scenario(
    "patrol", "1", "Patrol", "plain", "one group", [BASE, POST], [HILL], [CoalitionState(Red, [], 0, [], [], 0, 0)], [SCOUT],
    [], [], [])

  lemma WordsAreFilled()
    ensures !IsBlank("patrol") && !IsBlank("1") && !IsBlank("Patrol") && !IsBlank("plain") && !IsBlank("one group")
    ensures !IsBlank("base") && !IsBlank("Base") && !IsBlank("rear")
    ensures !IsBlank("post") && !IsBlank("Post") && !IsBlank("front")
    ensures !IsBlank("hill") && !IsBlank("Hill") && !IsBlank("high")
    ensures !IsBlank("scout") && !IsBlank("armor") && !IsBlank("ready")
    ensures !IsBlank("go") && !IsBlank("return") && !IsBlank("sector")
  {
    hide IsBlank;
    StartsFilled("patrol");
    StartsFilled("1");
    StartsFilled("Patrol");
    StartsFilled("plain");
    StartsFilled("one group");
    StartsFilled("base");
    StartsFilled("Base");
    StartsFilled("rear");
    StartsFilled("post");
    StartsFilled("Post");
    StartsFilled("front");
    StartsFilled("hill");
    StartsFilled("Hill");
    StartsFilled("high");
    StartsFilled("scout");
    StartsFilled("armor");
    StartsFilled("ready");
    StartsFilled("go");
    StartsFilled("return");
    StartsFilled("sector");
  }

  lemma PatrolLoads()
    ensures Loadable(PATROL) && ReferencesResolve(PATROL)
  {
    WordsAreFilled();
    hide IsBlank;
    assert PATROL.sectors[0] == BASE && PATROL.sectors[1] == POST;
    hide Loadable, ReferencesResolve;
    GoodIsLoadable(PATROL);
    ConsistentResolves(PATROL);
  }

  lemma PatrolStarts()
    ensures CreateRun(PATROL).Some?
    ensures var st := CreateRun(PATROL).value;
      Red in st.budgets && st.orders == map[] && ScoutAt(st, "base")
  {
    assert PATROL.activeGroups[..0] == [] && PATROL.coalitions[..0] == [];
    assert "base"[0] != "post"[0];
    hide Contains;
  }

  /** Where the scout is, and everything the validator asks about it. */
  predicate ScoutAt(st: StoreState, sectorId: string) {
    && "scout" in st.active && "scout" in st.world
    && st.active["scout"].coalition == Red && st.active["scout"].mobile && st.active["scout"].status == "ready"
    && st.active["scout"].id == "scout"
    && st.world["scout"].coalition == Some(Red) && st.world["scout"].sectorId == Some(sectorId)
  }

  // ------------------------------------------------------------------------ the payloads

  const THERE := Reposition("scout", ToSector, "post")
  const BACK := Withdraw("scout", ToSector, "base")

  const GO := Entry("go", RepositionGroup,
    map["group_id" := JString("scout"), "destination_type" := JString("sector"),
        "destination_id" := JString("post")])

  const RETURN := Entry("return", WithdrawGroup,
    map["group_id" := JString("scout"), "fallback_destination_type" := JString("sector"),
        "fallback_destination_id" := JString("base")])

  lemma GoParses()
    ensures ParseRequest(GO, Red) == Parsed(THERE, false)
  {
    WordsAreFilled();
    var fields := map["group_id" := JString("scout"), "destination_type" := JString("sector"),
                      "destination_id" := JString("post")];
    assert |"group_id"| == 8 && |"destination_type"| == 16 && |"destination_id"| == 14;
    assert Get(fields, "group_id") == JString("scout") && Get(fields, "destination_type") == JString("sector");
    assert Get(fields, "destination_id") == JString("post");
    hide IsBlank, IsSpace;
    assert Schema(RepositionGroup, fields) == Ok(Normalized(THERE, false));
    hide Schema;
    EntryParses("go", RepositionGroup, fields, THERE, Red);
  }

  lemma ReturnParses()
    ensures ParseRequest(RETURN, Red) == Parsed(BACK, false)
  {
    WordsAreFilled();
    var fields := map["group_id" := JString("scout"), "fallback_destination_type" := JString("sector"),
                      "fallback_destination_id" := JString("base")];
    assert |"group_id"| == 8 && |"fallback_destination_type"| == 25 && |"fallback_destination_id"| == 23;
    assert Get(fields, "group_id") == JString("scout") && Get(fields, "fallback_destination_type") == JString("sector");
    assert Get(fields, "fallback_destination_id") == JString("base");
    hide IsBlank, IsSpace;
    assert Schema(WithdrawGroup, fields) == Ok(Normalized(BACK, false));
    hide Schema;
    EntryParses("return", WithdrawGroup, fields, BACK, Red);
  }

  // ---------------------------------------------------------------------------- one turn

  lemma Sectors()
    ensures FindSector(PATROL.sectors, "base") == Some(BASE) && FindSector(PATROL.sectors, "post") == Some(POST)
    ensures TargetId(PATROL, THERE) == Some("post") && TargetId(PATROL, BACK) == Some("base")
    ensures Steps(PATROL, Red, THERE, 0).Some? && Steps(PATROL, Red, BACK, 0).Some?
  {
    assert PATROL.sectors[..1] == [BASE];
    assert "base"[0] != "post"[0];
    hide OrderFor;
  }

  lemma MoveIsLegal(st: StoreState, known: Option<seq<KnownControlPoint>>, p: Params, from: string)
    requires Red in st.budgets && ScoutAt(st, from) && p in {THERE, BACK} && from in {"base", "post"}
    ensures Legal(PATROL, ContextOf(st, Red, known), p)
  {
    Sectors();
    assert |"ready"| == 5 && |"destroyed"| == 9 && |"withdrawn"| == 9 && |"unavailable"| == 11;
    hide FindSector;
  }

  /** The order a move leaves behind. */
  function MoveOrder(p: Params, now: int): StandingOrder {
    OrderFor(Red, p, "scout", None, now)
  }

  lemma MovePlanned(st: StoreState, id: string, p: Params, now: int)
    requires p in {THERE, BACK} && BuildPlan(PATROL, st, Red, id, p, now).Some?
    ensures var plan := BuildPlan(PATROL, st, Red, id, p, now).value;
      plan.orders == [MoveOrder(p, now)] && |plan.commands| == 1 && plan.actionType != HoldAction
    ensures Steps(PATROL, Red, p, now).Some? && TargetId(PATROL, p).Some?
    ensures var steps := Steps(PATROL, Red, p, now).value;
      && |steps| == 1 && steps[0].Move? && steps[0].groupId == "scout" && steps[0].order == MoveOrder(p, now)
      && steps[0].sector.id == TargetId(PATROL, p).value
  {
    Sectors();
    hide FindSector, OrderFor, PlacedWorldGroup, MovedGroup;
  }

  /** Whether the move would be taken for a repetition. */
  ghost predicate Repeats(st: StoreState, p: Params) {
    Fingerprint(TypeOf(p), Some("scout"), p, None) in ActiveFingerprints(st.orders, Red)
  }

  lemma DuplicateIff(st: StoreState, plan: Plan, p: Params, now: int)
    requires plan.orders == [MoveOrder(p, now)]
    ensures IsDuplicate(plan, ActiveFingerprints(st.orders, Red)) <==> Repeats(st, p)
  {
    hide ActiveFingerprints, OrderId;
  }

  lemma OneAccepted(sim: Simulator, sent: seq<Request>, commands: seq<Command>)
    requires AcceptsAll(sim) && |commands| == 1
    ensures AcceptedCount(sim, sent, commands) == 1
  {
    assert sim(sent, commands[0].request) && commands[1..] == [];
  }

  /** What a turn with one of the two moves leaves behind, besides the position. */
  ghost predicate MoveLeft(st: StoreState, end: StoreState, p: Params, now: int, to: string) {
    && ScoutAt(end, to) && end.budgets == st.budgets && OrdersOk(end.orders)
    && end.orders == st.orders[MoveOrder(p, now).id := MoveOrder(p, now)]
  }

  /** A turn that consists of one of the two moves, with a simulator that takes everything. */
  lemma MoveTurn(
      start: StoreState, sim: Simulator, env: Env, known: Option<seq<KnownControlPoint>>, raw: RawAction, p: Params, now: int,
      from: string, to: string)
    requires AcceptsAll(sim) && OrdersOk(env.store.orders) && Red in env.store.budgets && ReferencesResolve(PATROL)
    requires ScoutAt(env.store, from) && p in {THERE, BACK} && from in {"base", "post"} && TargetId(PATROL, p) == Some(to)
    requires ParseRequest(raw, Red) == Parsed(p, false)
    ensures var end := TakeTurn(PATROL, sim, env, Turn.Command(Red, known, Alone(raw), now));
      && MoveLeft(env.store, end.store, p, now, to)
      && Position(end.store, "scout") == Some(to)
      && Told(start, sim, end.sent, "scout") == if Repeats(env.store, p) then Told(start, sim, env.sent, "scout") else Some(to)
  {
    hide ParseRequest, Legal, TakeTurn, BuildPlan, RunPlan, Steps, OrdersOk, Alone, ReferencesResolve, TargetId,
      Told, WellFormed, ScoutAt, ReadActionId, MoveOrder, Position, AcceptsAll, IsDuplicate, ActiveFingerprints,
      Repeats, ContextOf, MoveLeft;
    MoveIsLegal(env.store, known, p, from);
    TurnOfOne(PATROL, sim, env, Red, known, raw, p, now);
    var id := ReadActionId(raw);
    var plan := BuildPlan(PATROL, env.store, Red, id, p, now).value;
    MoveApplied(sim, env, id, p, now, from, to);
    MovePlanned(env.store, id, p, now);
    DuplicateIff(env.store, plan, p, now);
    OneAccepted(sim, env.sent, plan.commands);
    ActionOutcome(PATROL, start, sim, env, Red, id, p, now, "scout");
    assert Moved(p) == ["scout"] && Moved(p)[..1] == ["scout"];
  }

  lemma MoveApplied(sim: Simulator, env: Env, id: string, p: Params, now: int, from: string, to: string)
    requires AcceptsAll(sim) && OrdersOk(env.store.orders) && ScoutAt(env.store, from)
    requires WellFormed(p) && p in {THERE, BACK} && TargetId(PATROL, p) == Some(to)
    requires BuildPlan(PATROL, env.store, Red, id, p, now).Some?
    ensures var plan := BuildPlan(PATROL, env.store, Red, id, p, now).value;
      MoveLeft(env.store, RunPlan(sim, env, Red, plan).0.store, p, now, to)
  {
    hide BuildPlan, RunPlan, Steps, TargetId, WellFormed, AcceptsAll, Effective, ScoutAt, Perform, OrdersOk,
      MoveOrder, PerformAll, ActiveFingerprints, IsDuplicate, AcceptedCount;
    MovePlanned(env.store, id, p, now);
    var plan, steps := BuildPlan(PATROL, env.store, Red, id, p, now).value, Steps(PATROL, Red, p, now).value;
    OneAccepted(sim, env.sent, plan.commands);
    ActionRefines(PATROL, sim, env, Red, id, p, now);
    PlanEffect(sim, env, Red, plan);
    FewSteps(env.store, steps, 1, now);
    MoveOrderIsOk(p, now);
    MovePerformed(env.store, RunPlan(sim, env, Red, plan).0.store, steps[0], now, from);
  }

  lemma MoveOrderIsOk(p: Params, now: int)
    ensures OrderOk(MoveOrder(p, now))
  {
    hide OrderFor, OrderOk;
    OrderForIsOk(Red, p, "scout", None, now);
  }

  lemma MovePerformed(st: StoreState, end: StoreState, step: Atom, now: int, from: string)
    requires ScoutAt(st, from) && step.Move? && step.groupId == "scout" && SameTables(end, Perform(st, step, now))
    requires OrdersOk(st.orders) && OrderOk(step.order)
    ensures ScoutAt(end, step.sector.id) && end.budgets == st.budgets && OrdersOk(end.orders)
    ensures end.orders == st.orders[step.order.id := step.order]
  {
    hide Contains, OrderOk;
  }

  // ------------------------------------------------------------------------- three turns

  lemma OrdersDiffer(t: int, u: int)
    ensures MoveOrder(THERE, t).id != MoveOrder(BACK, u).id && MoveOrder(THERE, t).id == MoveOrder(THERE, u).id
  {
    hide OrderId;
    OrderIdInjective(Red, RepositionGroup, Some("scout"), Red, WithdrawGroup, Some("scout"));
  }

  lemma RepeatsIff(st: StoreState, p: Params, t: int)
    requires OrdersOk(st.orders)
    ensures Repeats(st, p) <==>
              MoveOrder(p, t).id in st.orders && st.orders[MoveOrder(p, t).id].fingerprint == MoveOrder(p, t).fingerprint
  {
    FingerprintIsAtItsId(st.orders, Red, MoveOrder(p, t).fingerprint);
    hide OrderId;
  }

  /** The run of three turns, one payload each. */
  function Patrolled(
      sim: Simulator, start: StoreState, known: Option<seq<KnownControlPoint>>, t: int, u: int, v: int): Env
  {
    Run(PATROL, sim, Env(start, []),
        [Turn.Command(Red, known, Alone(GO), t), Turn.Command(Red, known, Alone(RETURN), u),
         Turn.Command(Red, known, Alone(GO), v)])
  }

  lemma ThreeTurns(sc: Scenario, sim: Simulator, env: Env, a: Turn, b: Turn, c: Turn)
    ensures Run(sc, sim, env, [a, b, c]) == TakeTurn(sc, sim, TakeTurn(sc, sim, TakeTurn(sc, sim, env, a), b), c)
  {
    hide TakeTurn;
    assert [a, b, c][..2] == [a, b] && [a, b][..1] == [a] && [a][..0] == [];
    assert Run(sc, sim, env, [a]) == TakeTurn(sc, sim, env, a);
    assert Run(sc, sim, env, [a, b]) == TakeTurn(sc, sim, TakeTurn(sc, sim, env, a), b);
  }

  /** The scenario loads; Red sends its group to the post, withdraws it to the base and sends it to the
      post again.  The simulator takes all it is sent.  The third order is skipped, because the first
      one is still active: the store has the group at the post, the simulator was told the base. */
  lemma ThereAndBackDiverges(sim: Simulator, known: Option<seq<KnownControlPoint>>, t: int, u: int, v: int)
    requires AcceptsAll(sim)
    ensures Loadable(PATROL) && CreateRun(PATROL).Some?
    ensures var start := CreateRun(PATROL).value;
      var end := Patrolled(sim, start, known, t, u, v);
      && Position(end.store, "scout") == Some("post") && Told(start, sim, end.sent, "scout") == Some("base")
      && !Agrees(start, sim, end, "scout")
  {
    PatrolLoads();
    PatrolStarts();
    Sectors();
    GoParses();
    ReturnParses();
    OrdersDiffer(t, u);
    OrdersDiffer(v, u);
    OrdersDiffer(t, v);
    assert "base"[0] != "post"[0];
    hide Loadable, CreateRun, ReferencesResolve, ParseRequest, TakeTurn, Run, TargetId, Told, Position, ScoutAt,
      AcceptsAll, Repeats, Alone, MoveOrder;
    var start := CreateRun(PATROL).value;
    var env := Env(start, []);
    var a, b := Turn.Command(Red, known, Alone(GO), t), Turn.Command(Red, known, Alone(RETURN), u);
    var c := Turn.Command(Red, known, Alone(GO), v);
    ThreeTurns(PATROL, sim, env, a, b, c);
    MoveTurn(start, sim, env, known, GO, THERE, t, "base", "post");
    var there := TakeTurn(PATROL, sim, env, a);
    RepeatsIff(there.store, BACK, u);
    MoveTurn(start, sim, there, known, RETURN, BACK, u, "post", "base");
    var back := TakeTurn(PATROL, sim, there, b);
    RepeatsIff(back.store, THERE, v);
    MoveTurn(start, sim, back, known, GO, THERE, v, "base", "post");
  }
}
