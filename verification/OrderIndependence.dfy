/** The survivors of a conflict-checked batch can be executed in any order. */
module OrderIndependence {
  import opened Domain
  import opened Requests
  import opened Validation
  import opened Working
  import opened Conflicts
  import opened StateStore
  import opened Planning
  import opened Engine
  import opened Orders
  import opened Atoms
  import opened Batches
  import opened Commuting

  // -------------------------------------------------------------- two actions

  /** Actions whose steps write different rows (or are the same action). */
  predicate Apart(p: Params, q: Params) {
    || p == q
    || (&& !Clash(p, q)
        && !(p.ChangePosture? && q.ChangePosture? && p.groupId == q.groupId)
        && (p.Deploy? ==> DeployedId(p.reserveId) !in NamedGroups(q))
        && (q.Deploy? ==> DeployedId(q.reserveId) !in NamedGroups(p)))
  }

  /** What an action's steps look like, enough to tell two of them apart. */
  ghost predicate StepShape(c: Coalition, p: Params, a: Atom) {
    && OrderOk(a.order) && a.order.coalition == c && a.order.actionType == TypeOf(p) && a.order.entityId.Some?
    && match p
       case Hold(_, _, _) => false
       case Prioritize(s, _) => a.Order? && a.order.entityId.value == s
       case ChangePosture(g, _) => a.Stance? && a.groupId == g && a.order.entityId.value == g
       case Deploy(r, _, _) => a.Commit? && a.reserveId == r && a.order.entityId.value == DeployedId(r)
       case _ =>
         && a.Move? && a.groupId in MovementGroups(p) && a.order.entityId.value == a.groupId
         && (p.Reinforce? ==> a.newPosture == None) && (p.Reposition? ==> a.newPosture == None)
  }

  lemma StepsHaveShape(sc: Scenario, c: Coalition, p: Params, now: int)
    requires WellFormed(p) && Steps(sc, c, p, now).Some?
    ensures forall a <- Steps(sc, c, p, now).value :: StepShape(c, p, a)
  {
    hide Steps, StepShape, WellFormed;
    if p.Reinforce? {
      ReinforceStepsHaveShape(sc, c, p, now);
    } else {
      StepHasShape(sc, c, p, now);
    }
  }

  lemma ReinforceStepsHaveShape(sc: Scenario, c: Coalition, p: Params, now: int)
    requires WellFormed(p) && Steps(sc, c, p, now).Some? && p.Reinforce?
    ensures forall a <- Steps(sc, c, p, now).value :: StepShape(c, p, a)
  {
    StepOrdersOk(sc, c, p, now);
    hide OrderId, EntityType, WellFormed, OrderOk;
    var steps := Steps(sc, c, p, now).value;
    forall a | a in steps ensures StepShape(c, p, a) {
      assert OwnOrder(a, c, p);
      var i :| 0 <= i < |steps| && steps[i] == a;
      assert p.groupIds[i] in p.groupIds;
    }
  }

  lemma StepHasShape(sc: Scenario, c: Coalition, p: Params, now: int)
    requires WellFormed(p) && Steps(sc, c, p, now).Some? && !p.Reinforce?
    ensures |Steps(sc, c, p, now).value| <= 1
    ensures forall a <- Steps(sc, c, p, now).value :: StepShape(c, p, a)
  {
    StepOrdersOk(sc, c, p, now);
    hide OrderId, EntityType, WellFormed, OrderOk;
    var steps := Steps(sc, c, p, now).value;
    assert steps != [] ==> OwnOrder(steps[0], c, p) && StepShape(c, p, steps[0]);
  }

  lemma ShapesApart(c: Coalition, p: Params, q: Params, a: Atom, b: Atom)
    requires StepShape(c, p, a) && StepShape(c, q, b) && Apart(p, q) && p != q
    ensures StepsApart(a, b)
  {
    OrderIdInjective(a.order.coalition, a.order.actionType, a.order.entityId,
                     b.order.coalition, b.order.actionType, b.order.entityId);
    if p.Deploy? && q.Deploy? {
      DeployedIdInjective(p.reserveId, q.reserveId);
    }
    assert a.Move? || a.Stance? ==> a.groupId in NamedGroups(p) by {
      assert p.ChangePosture? ==> NamedGroups(p)[0] == p.groupId;
    }
    assert b.Move? || b.Stance? ==> b.groupId in NamedGroups(q) by {
      assert q.ChangePosture? ==> NamedGroups(q)[0] == q.groupId;
    }
    assert a.Move? && b.Move? ==> a.groupId != b.groupId;
  }

  lemma ActionStepsApart(sc: Scenario, c: Coalition, p: Params, q: Params, now: int)
    requires WellFormed(p) && WellFormed(q) && Steps(sc, c, p, now).Some? && Steps(sc, c, q, now).Some?
    requires Apart(p, q) && p != q
    ensures forall a <- Steps(sc, c, p, now).value :: forall b <- Steps(sc, c, q, now).value :: StepsApart(a, b)
  {
    StepsHaveShape(sc, c, p, now);
    StepsHaveShape(sc, c, q, now);
    forall a, b | a in Steps(sc, c, p, now).value && b in Steps(sc, c, q, now).value ensures StepsApart(a, b) {
      ShapesApart(c, p, q, a, b);
    }
  }

  /** Steps on other rows do not change whether an action counts as a repetition. */
  lemma {:induction false} RowsElsewhere(st: StoreState, xs: seq<Atom>, now: int, id: string)
    requires forall x <- xs :: x.order.id != id
    ensures var rows := PerformAll(st, xs, now).orders;
      (id in rows <==> id in st.orders) && (id in rows ==> rows[id] == st.orders[id])
  {
    if xs != [] {
      RowsElsewhere(st, xs[..|xs| - 1], now, id);
    }
  }

  lemma OnFileElsewhere(st: StoreState, xs: seq<Atom>, ys: seq<Atom>, c: Coalition, now: int)
    requires OrdersOk(st.orders) && OrdersOk(PerformAll(st, xs, now).orders)
    requires forall y <- ys :: OrderOk(y.order) && y.order.coalition == c
    requires forall x <- xs :: forall y <- ys :: x.order.id != y.order.id
    ensures OnFile(PerformAll(st, xs, now).orders, c, ys) == OnFile(st.orders, c, ys)
  {
    forall y | y in ys
      ensures y.order.fingerprint in ActiveFingerprints(PerformAll(st, xs, now).orders, c) <==>
              y.order.fingerprint in ActiveFingerprints(st.orders, c)
    {
      RowsElsewhere(st, xs, now, y.order.id);
      FingerprintIsAtItsId(st.orders, c, y.order.fingerprint);
      FingerprintIsAtItsId(PerformAll(st, xs, now).orders, c, y.order.fingerprint);
    }
  }

  lemma ActKeepsOrders(sc: Scenario, sim: Simulator, st: StoreState, c: Coalition, p: Params, now: int)
    requires WellFormed(p) && Steps(sc, c, p, now).Some? && OrdersOk(st.orders)
    ensures OrdersOk(Act(sc, sim, st, c, p, now).orders)
  {
    StepOrdersOk(sc, c, p, now);
    var steps := Steps(sc, c, p, now).value;
    var n := Count(sim, st.orders, c, steps, Requested(sc, c, p));
    forall a | a in steps[..n] ensures OrderOk(a.order) {
      assert OwnOrder(a, c, p);
    }
    StepsKeepShape(st, st, steps[..n], now);
  }

  /** Two actions that are apart can change places. */
  lemma ActionsCommute(sc: Scenario, sim: Simulator, st: StoreState, c: Coalition, p: Params, q: Params, now: int)
    requires WellFormed(p) && WellFormed(q) && Steps(sc, c, p, now).Some? && Steps(sc, c, q, now).Some?
    requires OrdersOk(st.orders) && Apart(p, q)
    ensures Act(sc, sim, Act(sc, sim, st, c, p, now), c, q, now) == Act(sc, sim, Act(sc, sim, st, c, q, now), c, p, now)
  {
    if p != q {
      ActKeepsOrders(sc, sim, st, c, p, now);
      ActKeepsOrders(sc, sim, st, c, q, now);
      ActionStepsApart(sc, c, p, q, now);
      OwnSteps(sc, c, p, now);
      OwnSteps(sc, c, q, now);
      var xs, ys := Steps(sc, c, p, now).value, Steps(sc, c, q, now).value;
      hide Steps, Requested, WellFormed, Apart, OrdersOk, OrderOk, Perform, PerformAll, OnFile;
      OtherIds(xs, ys);
      hide StepsApart;
      var m := Count(sim, st.orders, c, xs, Requested(sc, c, p));
      var n := Count(sim, st.orders, c, ys, Requested(sc, c, q));
      assert forall x <- xs[..m] :: x in xs;
      assert forall y <- ys[..n] :: y in ys;
      OnFileElsewhere(st, xs[..m], ys, c, now);
      OnFileElsewhere(st, ys[..n], xs, c, now);
      StepListsCommute(st, xs[..m], ys[..n], now);
    }
  }

  lemma OwnSteps(sc: Scenario, c: Coalition, p: Params, now: int)
    requires WellFormed(p) && Steps(sc, c, p, now).Some?
    ensures forall x <- Steps(sc, c, p, now).value :: OrderOk(x.order) && x.order.coalition == c
  {
    StepOrdersOk(sc, c, p, now);
    hide Steps, WellFormed, OrderOk;
    assert forall x <- Steps(sc, c, p, now).value :: OwnOrder(x, c, p);
  }

  lemma OtherIds(xs: seq<Atom>, ys: seq<Atom>)
    requires forall x <- xs :: forall y <- ys :: StepsApart(x, y)
    ensures forall x <- xs :: forall y <- ys :: x.order.id != y.order.id
    ensures forall y <- ys :: forall x <- xs :: y.order.id != x.order.id
  {
    forall x, y | x in xs && y in ys ensures x.order.id != y.order.id {
      assert StepsApart(x, y);
    }
  }

  // ------------------------------------------------------------------- any order

  ghost predicate Performable(sc: Scenario, c: Coalition, ps: seq<Params>, now: int) {
    forall p <- ps :: WellFormed(p) && Steps(sc, c, p, now).Some?
  }

  ghost predicate AllApart(ps: seq<Params>) {
    forall p <- ps :: forall q <- ps :: Apart(p, q)
  }

  ghost function ActAll(sc: Scenario, sim: Simulator, st: StoreState, c: Coalition, ps: seq<Params>, now: int): StoreState
    requires Performable(sc, c, ps, now)
  {
    if ps == [] then st
    else
      assert ps[|ps| - 1] in ps && forall p <- ps[..|ps| - 1] :: p in ps;
      Act(sc, sim, ActAll(sc, sim, st, c, ps[..|ps| - 1], now), c, ps[|ps| - 1], now)
  }

  lemma {:induction false} ActAllKeepsOrders(sc: Scenario, sim: Simulator, st: StoreState, c: Coalition, ps: seq<Params>, now: int)
    requires Performable(sc, c, ps, now) && OrdersOk(st.orders)
    ensures OrdersOk(ActAll(sc, sim, st, c, ps, now).orders)
  {
    if ps != [] {
      assert ps[|ps| - 1] in ps && forall p <- ps[..|ps| - 1] :: p in ps;
      ActAllKeepsOrders(sc, sim, st, c, ps[..|ps| - 1], now);
      ActKeepsOrders(sc, sim, ActAll(sc, sim, st, c, ps[..|ps| - 1], now), c, ps[|ps| - 1], now);
    }
  }

  function Without(ps: seq<Params>, i: nat): (r: seq<Params>)
    requires i < |ps|
    ensures forall p <- r :: p in ps
  {
    ps[..i] + ps[i + 1..]
  }

  lemma WithoutOne(ps: seq<Params>, i: nat)
    requires i < |ps|
    ensures multiset(Without(ps, i)) == multiset(ps) - multiset{ps[i]}
  {
    assert ps == ps[..i] + [ps[i]] + ps[i + 1..];
  }

  lemma PartOf(sc: Scenario, c: Coalition, ps: seq<Params>, qs: seq<Params>, now: int)
    requires Performable(sc, c, ps, now) && AllApart(ps) && forall q <- qs :: q in ps
    ensures Performable(sc, c, qs, now) && AllApart(qs)
  {
  }

  lemma WithoutMiddle(ps: seq<Params>, i: nat)
    requires i < |ps|
    ensures var n := |ps| - 1;
      var rest := Without(ps, i);
      if i == n then rest == ps[..n]
      else |rest| == n && rest[..n - 1] == Without(ps[..n], i) && rest[n - 1] == ps[n] && ps[..n][i] == ps[i]
  {
  }

  /** Any action can be postponed to the end. */
  lemma {:induction false} Postpone(sc: Scenario, sim: Simulator, st: StoreState, c: Coalition, ps: seq<Params>, i: nat, now: int)
    requires Performable(sc, c, ps, now) && AllApart(ps) && OrdersOk(st.orders) && i < |ps|
    ensures Performable(sc, c, Without(ps, i), now)
    ensures ps[i] in ps
    ensures ActAll(sc, sim, st, c, ps, now) == Act(sc, sim, ActAll(sc, sim, st, c, Without(ps, i), now), c, ps[i], now)
    decreases |ps|
  {
    hide Act, Apart, Steps, WellFormed, AllApart, Performable, OrdersOk, Without;
    var n := |ps| - 1;
    var front := ps[..n];
    assert ps[n] in ps && ps[i] in ps && forall p <- front :: p in ps;
    PartOf(sc, c, ps, Without(ps, i), now);
    PartOf(sc, c, ps, front, now);
    WithoutMiddle(ps, i);
    if i < n {
      Postpone(sc, sim, st, c, front, i, now);
      ActAllKeepsOrders(sc, sim, st, c, Without(front, i), now);
      PairApart(sc, c, ps, ps[i], ps[n], now);
      ActionsCommute(sc, sim, ActAll(sc, sim, st, c, Without(front, i), now), c, ps[i], ps[n], now);
    }
  }

  lemma PairApart(sc: Scenario, c: Coalition, ps: seq<Params>, p: Params, q: Params, now: int)
    requires Performable(sc, c, ps, now) && AllApart(ps) && p in ps && q in ps
    ensures WellFormed(p) && WellFormed(q) && Steps(sc, c, p, now).Some? && Steps(sc, c, q, now).Some? && Apart(p, q)
  {
  }

  lemma {:induction false} AnyOrder(
      sc: Scenario, sim: Simulator, st: StoreState, c: Coalition, ps: seq<Params>, qs: seq<Params>, now: int)
    requires multiset(ps) == multiset(qs)
    requires Performable(sc, c, ps, now) && AllApart(ps) && OrdersOk(st.orders)
    ensures Performable(sc, c, qs, now)
    ensures ActAll(sc, sim, st, c, ps, now) == ActAll(sc, sim, st, c, qs, now)
    decreases |ps|
  {
    hide Act, Apart, Steps, WellFormed, Performable, AllApart, OrdersOk, Without;
    assert |multiset(ps)| == |ps| && |multiset(qs)| == |qs|;
    assert forall q <- qs :: q in multiset(qs) && q in multiset(ps) && q in ps;
    if ps == [] {
      PartOf(sc, c, ps, qs, now);
    } else {
      var n := |ps| - 1;
      var last, front := ps[n], ps[..n];
      assert ps == front + [last];
      assert last in multiset(qs);
      var i :| 0 <= i < |qs| && qs[i] == last;
      PartOf(sc, c, ps, qs, now);
      PartOf(sc, c, ps, front, now);
      WithoutOne(qs, i);
      Postpone(sc, sim, st, c, qs, i, now);
      assert forall p <- front :: p in ps;
      assert multiset(front) == multiset(Without(qs, i));
      AnyOrder(sc, sim, st, c, front, Without(qs, i), now);
    }
  }

  // ----------------------------------------------------------- back to the engine

  function Survivors(vs: seq<Verdict>): seq<Params> {
    if vs == [] then []
    else
      var v := vs[|vs| - 1];
      Survivors(vs[..|vs| - 1]) + if Candidate(v) then [v.params.value] else []
  }

  lemma {:induction false} SurvivorAt(vs: seq<Verdict>, p: Params)
    requires p in Survivors(vs)
    ensures exists v <- vs :: Candidate(v) && v.params.value == p
  {
    var front, v := vs[..|vs| - 1], vs[|vs| - 1];
    assert v in vs && forall w <- front :: w in vs;
    if p in Survivors(front) {
      SurvivorAt(front, p);
    }
  }

  lemma StepIgnoresLog(a: StoreState, b: StoreState, step: Atom, now: int)
    requires SameTables(a, b)
    ensures SameTables(Perform(a, step, now), Perform(b, step, now))
  {
    PerformByTable(a, step, now);
    PerformByTable(b, step, now);
    hide Perform, PlacedWorldGroup, MovedGroup, Put, Pay;
  }

  lemma {:induction false} StepsIgnoreLog(a: StoreState, b: StoreState, steps: seq<Atom>, now: int)
    requires SameTables(a, b)
    ensures SameTables(PerformAll(a, steps, now), PerformAll(b, steps, now))
  {
    hide Perform;
    if steps != [] {
      var front, last := steps[..|steps| - 1], steps[|steps| - 1];
      StepsIgnoreLog(a, b, front, now);
      StepIgnoresLog(PerformAll(a, front, now), PerformAll(b, front, now), last, now);
    }
  }

  lemma ActIgnoresLog(sc: Scenario, sim: Simulator, a: StoreState, b: StoreState, c: Coalition, p: Params, now: int)
    requires Steps(sc, c, p, now).Some? && SameTables(a, b)
    ensures SameTables(Act(sc, sim, a, c, p, now), Act(sc, sim, b, c, p, now))
  {
    hide Steps, Requested;
    var steps := Steps(sc, c, p, now).value;
    StepsIgnoreLog(a, b, steps[..Count(sim, a.orders, c, steps, Requested(sc, c, p))], now);
  }

  /** Running the plan of an action is performing the action. */
  lemma RunningIsActing(
      sc: Scenario, sim: Simulator, env: Env, st: StoreState, c: Coalition, known: Option<seq<KnownControlPoint>>,
      actionId: string, p: Params, now: int)
    requires Memoryless(sim) && ReferencesResolve(sc) && c in st.budgets && WellFormed(p)
    requires Legal(sc, ContextOf(st, c, known), p) && Grown(st, env.store) && OrdersOk(env.store.orders)
    ensures Steps(sc, c, p, now).Some? && BuildPlan(sc, env.store, c, actionId, p, now).Some?
    ensures var plan := BuildPlan(sc, env.store, c, actionId, p, now).value;
      SameTables(RunPlan(sim, env, c, plan).0.store, Act(sc, sim, env.store, c, p, now))
  {
    hide BuildPlan, RunPlan, Steps, Legal, Requested;
    VettedAction(sc, sim, env, st, c, known, actionId, p, now);
    ReinforceNamesGroups(p);
    hide WellFormed;
    PlanIsStoreFree(sc, env.store, c, actionId, p, now);
    EffectiveIsCount(sim, env, c, BuildPlan(sc, env.store, c, actionId, p, now).value, Requested(sc, c, p),
                     Steps(sc, c, p, now).value);
  }

  /** Executing a batch is performing its survivors one after the other. */
  lemma {:induction false} BatchIsActAll(
      sc: Scenario, sim: Simulator, env: Env, c: Coalition, known: Option<seq<KnownControlPoint>>, vs: seq<Verdict>, now: int)
    requires Memoryless(sim) && ReferencesResolve(sc) && c in env.store.budgets && OrdersOk(env.store.orders)
    requires forall v <- vs :: Candidate(v) ==>
      WellFormed(v.params.value) && Legal(sc, ContextOf(env.store, c, known), v.params.value)
    ensures Performable(sc, c, Survivors(vs), now)
    ensures SameTables(ExecuteBatch(sc, sim, env, c, vs, now).env.store, ActAll(sc, sim, env.store, c, Survivors(vs), now))
  {
    hide BuildPlan, RunPlan, ExecuteBatch, ExecuteAction, Steps, WellFormed, Legal, Requested, Act, ActAll, Survivors, Performable,
      Grown, OrdersOk, SameTables, Memoryless, ReferencesResolve;
    if vs == [] {
      NothingToDo(sc, sim, env, c, now);
      assert vs == [];
    } else {
      var front, v := vs[..|vs| - 1], vs[|vs| - 1];
      BatchIsActAll(sc, sim, env, c, known, front, now);
      BatchCompletes(sc, sim, env, c, known, front, now);
      assert vs == front + [v];
      if Candidate(v) {
        var p := v.params.value;
        var mid := ExecuteBatch(sc, sim, env, c, front, now).env;
        RunningIsActing(sc, sim, mid, env.store, c, known, v.actionId, p, now);
        LastOfBatch(sc, sim, env, c, front, v, now);
        LastSurvivor(sc, sim, env.store, c, front, v, now);
        ActIgnoresLog(sc, sim, mid.store, ActAll(sc, sim, env.store, c, Survivors(front), now), c, p, now);
        SameTablesTrans(ExecuteBatch(sc, sim, env, c, vs, now).env.store, Act(sc, sim, mid.store, c, p, now),
                        ActAll(sc, sim, env.store, c, Survivors(vs), now));
      } else {
        RejectedLast(sc, sim, env, c, front, v, now);
      }
    }
  }

  lemma SameTablesTrans(a: StoreState, b: StoreState, c: StoreState)
    requires SameTables(a, b) && SameTables(b, c)
    ensures SameTables(a, c)
  {
  }

  lemma NothingToDo(sc: Scenario, sim: Simulator, env: Env, c: Coalition, now: int)
    ensures Survivors([]) == [] && Performable(sc, c, [], now)
    ensures ExecuteBatch(sc, sim, env, c, [], now).env == env
    ensures SameTables(ExecuteBatch(sc, sim, env, c, [], now).env.store, ActAll(sc, sim, env.store, c, [], now))
  {
  }

  lemma LastOfBatch(sc: Scenario, sim: Simulator, env: Env, c: Coalition, front: seq<Verdict>, v: Verdict, now: int)
    requires ExecuteBatch(sc, sim, env, c, front, now).Completed? && Candidate(v)
    requires BuildPlan(sc, ExecuteBatch(sc, sim, env, c, front, now).env.store, c, v.actionId, v.params.value, now).Some?
    ensures var mid := ExecuteBatch(sc, sim, env, c, front, now).env;
      ExecuteBatch(sc, sim, env, c, front + [v], now).env ==
      RunPlan(sim, mid, c, BuildPlan(sc, mid.store, c, v.actionId, v.params.value, now).value).0
  {
    hide BuildPlan, RunPlan;
    assert (front + [v])[..|front|] == front;
  }

  lemma RejectedLast(sc: Scenario, sim: Simulator, env: Env, c: Coalition, front: seq<Verdict>, v: Verdict, now: int)
    requires !Candidate(v)
    ensures ExecuteBatch(sc, sim, env, c, front + [v], now) == ExecuteBatch(sc, sim, env, c, front, now)
    ensures Survivors(front + [v]) == Survivors(front)
  {
    hide ExecuteAction;
    assert (front + [v])[..|front|] == front;
  }

  lemma LastSurvivor(sc: Scenario, sim: Simulator, st: StoreState, c: Coalition, front: seq<Verdict>, v: Verdict, now: int)
    requires Candidate(v) && Performable(sc, c, Survivors(front), now)
    requires WellFormed(v.params.value) && Steps(sc, c, v.params.value, now).Some?
    ensures Performable(sc, c, Survivors(front + [v]), now)
    ensures ActAll(sc, sim, st, c, Survivors(front + [v]), now) ==
            Act(sc, sim, ActAll(sc, sim, st, c, Survivors(front), now), c, v.params.value, now)
  {
    hide Act, Steps, WellFormed;
    assert (front + [v])[..|front|] == front;
    var ps := Survivors(front + [v]);
    assert ps == Survivors(front) + [v.params.value];
    assert ps[..|ps| - 1] == Survivors(front) && ps[|ps| - 1] == v.params.value;
  }

  lemma ReinforceNamesGroups(p: Params)
    requires WellFormed(p)
    ensures p.Reinforce? ==> p.groupIds != []
  {
  }

  /** What is asked of a batch beyond vetting: one posture change per group, and deployments
      whose map id is not in use yet. */
  ghost predicate Orderly(st: StoreState, vs: seq<Verdict>) {
    && (forall v <- vs, w <- vs ::
          && Candidate(v) && Candidate(w) && v.params.value.ChangePosture? && w.params.value.ChangePosture?
          && v.params.value.groupId == w.params.value.groupId
          ==> v.params.value == w.params.value)
    && (forall v <- vs :: Candidate(v) && v.params.value.Deploy? ==> DeployedId(v.params.value.reserveId) !in st.active)
  }

  lemma SurvivorsAreApart(
      sc: Scenario, st: StoreState, c: Coalition, known: Option<seq<KnownControlPoint>>, vs: seq<Verdict>)
    requires c in st.budgets && Vetted(sc, ContextOf(st, c, known), vs) && Orderly(st, vs)
    ensures AllApart(Survivors(vs))
  {
    forall p, q | p in Survivors(vs) && q in Survivors(vs) ensures Apart(p, q) {
      SurvivorAt(vs, p);
      SurvivorAt(vs, q);
      var v :| v in vs && Candidate(v) && v.params.value == p;
      var w :| w in vs && Candidate(w) && w.params.value == q;
      if p != q {
        var i :| 0 <= i < |vs| && vs[i] == v;
        var j :| 0 <= j < |vs| && vs[j] == w;
        ClashIsSymmetric(p, q);
        assert !Clash(p, q);
        NamedGroupsExist(sc, ContextOf(st, c, known), p);
        NamedGroupsExist(sc, ContextOf(st, c, known), q);
      }
    }
  }

  lemma NamedGroupsExist(sc: Scenario, ctx: Context, p: Params)
    requires Legal(sc, ctx, p)
    ensures forall g <- NamedGroups(p) :: g in ctx.active
  {
    forall g | g in NamedGroups(p) ensures g in ctx.active {
      assert GroupLegal(sc, ctx, p, g);
    }
  }

  /** Order independence: any rearrangement of the surviving actions leaves the same budgets,
      reserves, groups, world records and standing orders. */
  lemma ExecutionOrderDoesNotMatter(
      sc: Scenario, sim: Simulator, env: Env, c: Coalition, known: Option<seq<KnownControlPoint>>,
      vs: seq<Verdict>, ws: seq<Verdict>, now: int)
    requires ReferencesResolve(sc) && c in env.store.budgets && OrdersOk(env.store.orders) && Memoryless(sim)
    requires Vetted(sc, ContextOf(env.store, c, known), vs) && Orderly(env.store, vs)
    requires multiset(Survivors(ws)) == multiset(Survivors(vs))
    ensures SameTables(ExecuteBatch(sc, sim, env, c, vs, now).env.store, ExecuteBatch(sc, sim, env, c, ws, now).env.store)
  {
    hide ExecuteBatch, Legal, WellFormed, Memoryless;
    forall w | w in ws && Candidate(w)
      ensures WellFormed(w.params.value) && Legal(sc, ContextOf(env.store, c, known), w.params.value)
    {
      SurvivorListed(ws, w);
      assert w.params.value in multiset(Survivors(vs));
      SurvivorAt(vs, w.params.value);
    }
    BatchIsActAll(sc, sim, env, c, known, vs, now);
    BatchIsActAll(sc, sim, env, c, known, ws, now);
    SurvivorsAreApart(sc, env.store, c, known, vs);
    AnyOrder(sc, sim, env.store, c, Survivors(vs), Survivors(ws), now);
  }

  lemma {:induction false} SurvivorListed(vs: seq<Verdict>, v: Verdict)
    requires v in vs && Candidate(v)
    ensures v.params.value in Survivors(vs)
  {
    var front, last := vs[..|vs| - 1], vs[|vs| - 1];
    assert vs == front + [last];
    if v != last {
      SurvivorListed(front, v);
    }
  }

  lemma AcceptedStance(sc: Scenario, sim: Simulator, st: StoreState, c: Coalition, p: Params, now: int)
    requires p.ChangePosture? && AcceptsAll(sim) && p.groupId in st.active
    ensures var st' := Act(sc, sim, st, c, p, now);
      p.groupId in st'.active && st'.active[p.groupId].posture == p.posture
  {
    hide OrderId, Contains;
    var steps, rs := Steps(sc, c, p, now).value, Requested(sc, c, p);
    assert |steps| == |rs| == 1 && rs[1..] == [];
    assert AcceptedRequests(sim, rs) == 1;
    assert Count(sim, st.orders, c, steps, rs) == 1;
    assert steps[..1] == [steps[0]] && [steps[0]][..0] == [];
    assert PerformAll(st, [steps[0]], now) == Perform(st, steps[0], now);
  }

  /** One posture change per group is a real condition: two surviving posture changes of one group
      can change places, with a simulator that takes everything, only if they say the same. */
  lemma TwoPosturesChangePlacesIff(
      sc: Scenario, sim: Simulator, env: Env, c: Coalition, known: Option<seq<KnownControlPoint>>,
      v: Verdict, w: Verdict, now: int)
    requires ReferencesResolve(sc) && c in env.store.budgets && OrdersOk(env.store.orders) && AcceptsAll(sim)
    requires Vetted(sc, ContextOf(env.store, c, known), [v, w]) && Candidate(v) && Candidate(w)
    requires var p, q := v.params.value, w.params.value;
      p.ChangePosture? && q.ChangePosture? && p.groupId == q.groupId
    ensures SameTables(ExecuteBatch(sc, sim, env, c, [v, w], now).env.store, ExecuteBatch(sc, sim, env, c, [w, v], now).env.store)
            <==> v.params.value.posture == w.params.value.posture
  {
    var p, q := v.params.value, w.params.value;
    assert v in [v, w] && w in [v, w];
    NamedGroupsExist(sc, ContextOf(env.store, c, known), p);
    hide ExecuteBatch, Legal, WellFormed, Act, Vetted;
    BatchIsActAll(sc, sim, env, c, known, [v, w], now);
    BatchIsActAll(sc, sim, env, c, known, [w, v], now);
    TwoSurvivors(sc, sim, env.store, c, v, w, now);
    TwoSurvivors(sc, sim, env.store, c, w, v, now);
    AcceptedStance(sc, sim, env.store, c, p, now);
    AcceptedStance(sc, sim, env.store, c, q, now);
    AcceptedStance(sc, sim, Act(sc, sim, env.store, c, p, now), c, q, now);
    AcceptedStance(sc, sim, Act(sc, sim, env.store, c, q, now), c, p, now);
  }

  lemma TwoSurvivors(sc: Scenario, sim: Simulator, st: StoreState, c: Coalition, v: Verdict, w: Verdict, now: int)
    requires Candidate(v) && Candidate(w) && v.params.value.ChangePosture? && w.params.value.ChangePosture?
    requires WellFormed(v.params.value) && WellFormed(w.params.value)
    ensures Performable(sc, c, Survivors([v, w]), now)
    ensures ActAll(sc, sim, st, c, Survivors([v, w]), now) ==
            Act(sc, sim, Act(sc, sim, st, c, v.params.value, now), c, w.params.value, now)
  {
    hide Act, WellFormed;
    assert Survivors([]) == [];
    LastSurvivor(sc, sim, st, c, [], v, now);
    assert [] + [v] == [v] && [v] + [w] == [v, w];
    LastSurvivor(sc, sim, st, c, [v], w, now);
  }
}
