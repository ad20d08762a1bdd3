/** What the other side has and does never shows in what a coalition's own turns do: two worlds
    that look alike from its side send its requests alike and keep looking alike, turn after turn,
    whatever the other side plays in each of them. */
module Noninterference {
  import opened Domain
  import opened Requests
  import opened Validation
  import opened Working
  import opened Conflicts
  import opened StateStore
  import opened Planning
  import opened Engine
  import opened Orders
  import opened Atoms
  import opened Batches
  import opened Commuting
  import opened Effects
  import opened OrderIndependence
  import opened Runs
  import opened Frames
  import opened Blindness
  import opened Fusion

  /** Own order rows agree. */
  ghost predicate OrdersAlike(a: map<string, StandingOrder>, b: map<string, StandingOrder>, c: Coalition) {
    forall id ::
      (id in a && a[id].coalition == c) || (id in b && b[id].coalition == c) ==> id in a && id in b && a[id] == b[id]
  }

  /** The two stores agree on everything coalition c owns: budget, reserves, groups with their
      world records, and standing orders.  Everything else is arbitrary on either side. */
  ghost predicate StoresAlike(a: StoreState, b: StoreState, c: Coalition) {
    && c in a.budgets && c in b.budgets
    && LooksAlike(ContextOf(a, c, None), ContextOf(b, c, None))
    && OrdersAlike(a.orders, b.orders, c)
  }

  lemma ContextsAlike(a: StoreState, b: StoreState, c: Coalition, known: Option<seq<KnownControlPoint>>)
    requires StoresAlike(a, b, c)
    ensures LooksAlike(ContextOf(a, c, known), ContextOf(b, c, known))
  {
    var x, y := ContextOf(a, c, None), ContextOf(b, c, None);
    var x', y' := ContextOf(a, c, known), ContextOf(b, c, known);
    forall g | OwnGroup(x', g) || OwnGroup(y', g)
      ensures OwnGroup(x', g) && OwnGroup(y', g) && x'.active[g] == y'.active[g]
      ensures SameWorldRecord(x', y', g) && SameWorldRecord(x', y', x'.active[g].id)
    {
      assert OwnGroup(x, g) || OwnGroup(y, g);
      assert SameWorldRecord(x, y, g) && SameWorldRecord(x, y, x.active[g].id);
    }
    forall r | OwnReserve(x', r) || OwnReserve(y', r)
      ensures OwnReserve(x', r) && OwnReserve(y', r) && x'.reserves[r] == y'.reserves[r]
    {
      assert OwnReserve(x, r) || OwnReserve(y, r);
    }
  }

  // ---------------------------------------------------------------------- one step

  /** A step that touches only rows of coalition c. */
  predicate OwnStep(st: StoreState, c: Coalition, a: Atom) {
    && a.order.coalition == c
    && match a
       case Order(_) => true
       case Stance(g, _, _) => g in st.active && st.active[g].coalition == c
       case Move(g, _, _, _, _) => g in st.active && st.active[g].coalition == c
       case Commit(d, r, _, _) => d == c && r in st.reserves && st.reserves[r].coalition == c
  }

  lemma OwnStepsStay(st: StoreState, c: Coalition, a: Atom, b: Atom, now: int)
    requires OwnStep(st, c, a) && OwnStep(st, c, b)
    ensures OwnStep(Perform(st, a, now), c, b)
  {
    hide Contains;
  }

  /** Writing the same rows of one group into both stores. */
  lemma GroupWritten(
      a: StoreState, b: StoreState, a': StoreState, b': StoreState, c: Coalition, g: string, group: ActiveGroup,
      record: Option<WorldGroup>)
    requires StoresAlike(a, b, c) && group.coalition == c && group.id == g
    requires record.None? ==> OwnGroup(ContextOf(a, c, None), g)
    requires a'.active == a.active[g := group] && b'.active == b.active[g := group]
    requires a'.world == (if record.Some? then a.world[g := record.value] else a.world)
    requires b'.world == (if record.Some? then b.world[g := record.value] else b.world)
    requires a'.budgets == a.budgets && b'.budgets == b.budgets && a'.reserves == a.reserves && b'.reserves == b.reserves
    ensures LooksAlike(ContextOf(a', c, None), ContextOf(b', c, None))
  {
    var x, y := ContextOf(a, c, None), ContextOf(b, c, None);
    var x', y' := ContextOf(a', c, None), ContextOf(b', c, None);
    forall h | OwnGroup(x', h) || OwnGroup(y', h)
      ensures OwnGroup(x', h) && OwnGroup(y', h) && x'.active[h] == y'.active[h]
      ensures SameWorldRecord(x', y', h) && SameWorldRecord(x', y', x'.active[h].id)
    {
      if h == g {
        assert record.None? ==> SameWorldRecord(x, y, g);
      } else {
        assert OwnGroup(x, h) || OwnGroup(y, h);
        assert SameWorldRecord(x, y, h) && SameWorldRecord(x, y, x.active[h].id);
      }
    }
    forall r | OwnReserve(x', r) || OwnReserve(y', r)
      ensures OwnReserve(x', r) && OwnReserve(y', r) && x'.reserves[r] == y'.reserves[r]
    {
      assert OwnReserve(x, r) || OwnReserve(y, r);
    }
  }

  /** Charging and committing the same own reserve in both stores. */
  lemma ReserveWritten(a: StoreState, b: StoreState, a': StoreState, b': StoreState, c: Coalition, r: string)
    requires StoresAlike(a, b, c) && OwnReserve(ContextOf(a, c, None), r) && r in b.reserves
    requires a'.active == a.active && b'.active == b.active && a'.world == a.world && b'.world == b.world
    requires a'.orders == a.orders && b'.orders == b.orders
    requires a'.budgets == a.budgets[c := a.budgets[c] - a.reserves[r].cost]
    requires b'.budgets == b.budgets[c := b.budgets[c] - b.reserves[r].cost]
    requires a'.reserves == a.reserves[r := a.reserves[r].(available := false, status := "committed")]
    requires b'.reserves == b.reserves[r := b.reserves[r].(available := false, status := "committed")]
    ensures StoresAlike(a', b', c)
  {
    var x, y := ContextOf(a, c, None), ContextOf(b, c, None);
    var x', y' := ContextOf(a', c, None), ContextOf(b', c, None);
    assert a.reserves[r] == b.reserves[r];
    forall h | OwnGroup(x', h) || OwnGroup(y', h)
      ensures OwnGroup(x', h) && OwnGroup(y', h) && x'.active[h] == y'.active[h]
      ensures SameWorldRecord(x', y', h) && SameWorldRecord(x', y', x'.active[h].id)
    {
      assert OwnGroup(x, h) || OwnGroup(y, h);
      assert SameWorldRecord(x, y, h) && SameWorldRecord(x, y, x.active[h].id);
    }
    forall s | OwnReserve(x', s) || OwnReserve(y', s)
      ensures OwnReserve(x', s) && OwnReserve(y', s) && x'.reserves[s] == y'.reserves[s]
    {
      assert OwnReserve(x, s) || OwnReserve(y, s);
    }
  }

  lemma OrderWritten(a: StoreState, b: StoreState, c: Coalition, o: StandingOrder)
    requires StoresAlike(a, b, c) && o.coalition == c
    ensures StoresAlike(PutOrder(a, o), PutOrder(b, o), c)
  {
    assert ContextOf(PutOrder(a, o), c, None) == ContextOf(a, c, None);
    assert ContextOf(PutOrder(b, o), c, None) == ContextOf(b, c, None);
    hide LooksAlike;
  }

  lemma OwnRowsAgree(a: StoreState, b: StoreState, c: Coalition, step: Atom)
    requires StoresAlike(a, b, c) && OwnStep(a, c, step)
    ensures OwnStep(b, c, step)
    ensures step.Stance? || step.Move? ==> a.active[step.groupId] == b.active[step.groupId]
    ensures step.Commit? ==> a.reserves[step.reserveId] == b.reserves[step.reserveId]
  {
    var x, y := ContextOf(a, c, None), ContextOf(b, c, None);
    if step.Stance? || step.Move? {
      assert OwnGroup(x, step.groupId);
    }
    if step.Commit? {
      assert OwnReserve(x, step.reserveId);
    }
  }

  /** Own steps keep stores alike. */
  lemma StepKeepsAlike(a: StoreState, b: StoreState, c: Coalition, step: Atom, now: int)
    requires StoresAlike(a, b, c) && OwnStep(a, c, step)
    ensures StoresAlike(Perform(a, step, now), Perform(b, step, now), c)
  {
    OwnRowsAgree(a, b, c, step);
    hide LooksAlike, Contains, OrdersAlike;
    match step
    case Order(o) => OrderWritten(a, b, c, o);
    case Stance(g, posture, o) =>
      var group := a.active[g].(id := g, posture := posture);
      var a', b' := a.(active := a.active[g := group]), b.(active := b.active[g := group]);
      GroupWritten(a, b, a', b', c, g, group, None);
      OrderWritten(a', b', c, o);
    case Move(g, sector, point, posture, o) =>
      var group := MovedGroup(a.active[g], g, sector.id, point, posture);
      var record := PlacedWorldGroup(sector, g, g, c, group.groupType, point, group.mobile, now);
      hide PlacedWorldGroup;
      var a' := a.(active := a.active[g := group], world := a.world[g := record]);
      var b' := b.(active := b.active[g := group], world := b.world[g := record]);
      GroupWritten(a, b, a', b', c, g, group, Some(record));
      OrderWritten(a', b', c, o);
    case Commit(_, r, sector, o) =>
      CommitKeepsAlike(a, b, c, r, sector, o, now);
  }

  lemma CommitKeepsAlike(a: StoreState, b: StoreState, c: Coalition, r: string, sector: Sector, o: StandingOrder, now: int)
    requires StoresAlike(a, b, c) && OwnStep(a, c, Commit(c, r, sector, o))
    ensures StoresAlike(Perform(a, Commit(c, r, sector, o), now), Perform(b, Commit(c, r, sector, o), now), c)
  {
    OwnRowsAgree(a, b, c, Commit(c, r, sector, o));
    hide LooksAlike, Contains, OrdersAlike, DeployedId;
    var reserve, id := a.reserves[r], DeployedId(r);
    var committed := reserve.(available := false, status := "committed");
    var a1 := a.(budgets := a.budgets[c := a.budgets[c] - reserve.cost], reserves := a.reserves[r := committed]);
    var b1 := b.(budgets := b.budgets[c := b.budgets[c] - reserve.cost], reserves := b.reserves[r := committed]);
    ReserveWritten(a, b, a1, b1, c, r);
    var group := ActiveGroup(id, c, reserve.groupType, Defensive, Some(sector.id), true, "ready", None, 0, 0);
    var record := PlacedWorldGroup(sector, id, r, c, reserve.groupType, None, true, now);
    hide PlacedWorldGroup;
    var a2 := a1.(active := a1.active[id := group], world := a1.world[id := record]);
    var b2 := b1.(active := b1.active[id := group], world := b1.world[id := record]);
    GroupWritten(a1, b1, a2, b2, c, id, group, Some(record));
    OrderWritten(a2, b2, c, o);
  }

  lemma {:induction false} StepsKeepAlike(a: StoreState, b: StoreState, c: Coalition, steps: seq<Atom>, now: int)
    requires StoresAlike(a, b, c) && forall s <- steps :: OwnStep(a, c, s)
    ensures StoresAlike(PerformAll(a, steps, now), PerformAll(b, steps, now), c)
    ensures forall s :: OwnStep(a, c, s) ==> OwnStep(PerformAll(a, steps, now), c, s)
  {
    hide StoresAlike, OwnStep, Perform;
    if steps != [] {
      var front, last := steps[..|steps| - 1], steps[|steps| - 1];
      StepsKeepAlike(a, b, c, front, now);
      StepKeepsAlike(PerformAll(a, front, now), PerformAll(b, front, now), c, last, now);
      forall s | OwnStep(a, c, s) ensures OwnStep(PerformAll(a, steps, now), c, s) {
        OwnStepsStay(PerformAll(a, front, now), c, last, s, now);
      }
    }
  }

  // -------------------------------------------------------------- what has been sent

  /** The requests of one coalition, in the order they were sent. */
  function Of(sent: seq<Request>, c: Coalition): seq<Request> {
    if sent == [] then []
    else
      Of(sent[..|sent| - 1], c) + if sent[|sent| - 1].payload.coalition == c then [sent[|sent| - 1]] else []
  }

  /** The simulator's reply to c depends on nothing but what c has sent. */
  ghost predicate AnswersBySide(sim: Simulator, c: Coalition) {
    forall h, h', r: Request :: r.payload.coalition == c && Of(h, c) == Of(h', c) ==> sim(h, r) == sim(h', r)
  }

  /** What two histories have in common: everything, with any simulator at all, or the requests
      of c, with a simulator that answers c by them. */
  ghost predicate Shared(whole: bool, sim: Simulator, c: Coalition, h: seq<Request>, h': seq<Request>) {
    if whole then h == h' else AnswersBySide(sim, c) && Of(h, c) == Of(h', c)
  }

  ghost predicate AllFrom(rs: seq<Request>, c: Coalition) {
    forall r <- rs :: r.payload.coalition == c
  }

  /** Every request of an action is marked with the coalition that gave it. */
  lemma RequestsAreMarked(sc: Scenario, c: Coalition, p: Params)
    ensures AllFrom(Requested(sc, c, p), c)
  {
  }

  lemma {:induction false} OthersSend(sim: Simulator, sent: seq<Request>, xs: seq<Command>, d: Coalition, c: Coalition)
    requires d != c && forall x <- xs :: x.request.payload.coalition == d
    ensures Of(SentAfter(sim, sent, xs), c) == Of(sent, c)
    decreases |xs|
  {
    if xs != [] {
      OthersSend(sim, sent + [xs[0].request], xs[1..], d, c);
    }
  }

  // -------------------------------------------------------------------- one action

  lemma {:induction false} SameRequestsSameReplies(
      whole: bool, sim: Simulator, c: Coalition, h: seq<Request>, h': seq<Request>, xs: seq<Command>, ys: seq<Command>)
    requires |xs| == |ys| && forall i :: 0 <= i < |xs| ==> xs[i].request == ys[i].request
    requires Shared(whole, sim, c, h, h') && forall x <- xs :: x.request.payload.coalition == c
    ensures AcceptedCount(sim, h, xs) == AcceptedCount(sim, h', ys)
    ensures Shared(whole, sim, c, SentAfter(sim, h, xs), SentAfter(sim, h', ys))
    decreases |xs|
  {
    if xs != [] {
      var r := xs[0].request;
      assert sim(h, r) == sim(h', r);
      SameRequestsSameReplies(whole, sim, c, h + [r], h' + [r], xs[1..], ys[1..]);
    }
  }

  /** Two plans for the same requests and steps, run on alike pasts and alike order tables. */
  lemma PlansRunAlike(
      whole: bool, sim: Simulator, x: Env, y: Env, c: Coalition, p: Plan, q: Plan, rs: seq<Request>, steps: seq<Atom>)
    requires PlanFor(p, rs, steps) && PlanFor(q, rs, steps) && AllFrom(rs, c)
    requires Shared(whole, sim, c, x.sent, y.sent) && OrdersAlike(x.store.orders, y.store.orders, c)
    ensures Shared(whole, sim, c, RunPlan(sim, x, c, p).0.sent, RunPlan(sim, y, c, q).0.sent)
    ensures Effective(p, RunPlan(sim, x, c, p).1) == Effective(q, RunPlan(sim, y, c, q).1)
  {
    RepetitionIsOnFile(p, rs, steps, x.store.orders, c);
    RepetitionIsOnFile(q, rs, steps, y.store.orders, c);
    SameRequestsSameReplies(whole, sim, c, x.sent, y.sent, p.commands, q.commands);
    hide ActiveFingerprints, OnFile, IsDuplicate, ApplyUpdates, EffectiveUpdates, EffectiveOrders, AcceptedCount, SentAfter,
      Shared, AllFrom;
  }

  /** A legal action's steps touch only its coalition's rows. */
  lemma LegalStepsAreOwn(
      sc: Scenario, st: StoreState, mid: StoreState, c: Coalition, known: Option<seq<KnownControlPoint>>, p: Params, now: int)
    requires c in st.budgets && WellFormed(p) && Legal(sc, ContextOf(st, c, known), p) && Steps(sc, c, p, now).Some?
    requires Grown(st, mid) && OwnStaysOwn(st, mid, c)
    ensures forall s <- Steps(sc, c, p, now).value :: OwnStep(mid, c, s)
  {
    var ctx := ContextOf(st, c, known);
    StepsHaveShape(sc, c, p, now);
    forall s | s in Steps(sc, c, p, now).value ensures OwnStep(mid, c, s) {
      assert StepShape(c, p, s);
      if s.Move? {
        assert s.groupId in NamedGroups(p) && GroupLegal(sc, ctx, p, s.groupId);
      }
      if s.Stance? {
        assert p.ChangePosture? && NamedGroups(p)[0] == p.groupId && GroupLegal(sc, ctx, p, p.groupId);
      }
    }
  }

  lemma OwnStaysFromSteps(st: StoreState, mid: StoreState, end: StoreState, c: Coalition)
    requires OwnStaysOwn(st, mid, c)
    requires forall s :: OwnStep(mid, c, s) ==> OwnStep(end, c, s)
    ensures OwnStaysOwn(st, end, c)
  {
    forall g | g in st.active && st.active[g].coalition == c ensures g in end.active && end.active[g].coalition == c {
      var fingerprint := Fingerprint(HoldAction, None, Hold("", "", ""), None);
      var s := Stance(g, Defensive, StandingOrder("", c, HoldAction, "", None, fingerprint, true, 0));
      assert OwnStep(mid, c, s);
    }
  }

  lemma ActionsAlike(
      whole: bool, sc: Scenario, sim: Simulator, x: Env, y: Env, a: StoreState, b: StoreState, c: Coalition,
      known: Option<seq<KnownControlPoint>>, id: string, p: Params, now: int)
    requires ReferencesResolve(sc) && c in a.budgets && c in b.budgets && WellFormed(p)
    requires Legal(sc, ContextOf(a, c, known), p) && Legal(sc, ContextOf(b, c, known), p)
    requires Grown(a, x.store) && Grown(b, y.store) && OrdersOk(x.store.orders) && OrdersOk(y.store.orders)
    requires Shared(whole, sim, c, x.sent, y.sent) && StoresAlike(x.store, y.store, c) && OwnStaysOwn(a, x.store, c)
    ensures BuildPlan(sc, x.store, c, id, p, now).Some? && BuildPlan(sc, y.store, c, id, p, now).Some?
    ensures var x' := RunPlan(sim, x, c, BuildPlan(sc, x.store, c, id, p, now).value).0;
      var y' := RunPlan(sim, y, c, BuildPlan(sc, y.store, c, id, p, now).value).0;
      Shared(whole, sim, c, x'.sent, y'.sent) && StoresAlike(x'.store, y'.store, c) && OwnStaysOwn(a, x'.store, c)
  {
    VettedAction(sc, sim, x, a, c, known, id, p, now);
    VettedAction(sc, sim, y, b, c, known, id, p, now);
    LegalStepsAreOwn(sc, a, x.store, c, known, p, now);
    ReinforceNamesGroups(p);
    RequestsAreMarked(sc, c, p);
    PlanIsStoreFree(sc, x.store, c, id, p, now);
    PlanIsStoreFree(sc, y.store, c, id, p, now);
    hide BuildPlan, Steps, Legal, WellFormed, Requested, OwnStep, LooksAlike, OwnStaysOwn, RunPlan, Grown, Shared, AllFrom;
    var plan, other := BuildPlan(sc, x.store, c, id, p, now).value, BuildPlan(sc, y.store, c, id, p, now).value;
    var steps := Steps(sc, c, p, now).value;
    PlansRunAlike(whole, sim, x, y, c, plan, other, Requested(sc, c, p), steps);
    var n := Effective(plan, RunPlan(sim, x, c, plan).1);
    assert forall s <- steps[..n] :: s in steps;
    StepsKeepAlike(x.store, y.store, c, steps[..n], now);
    hide StoresAlike;
    OwnStaysFromSteps(a, x.store, PerformAll(x.store, steps[..n], now), c);
  }

  // --------------------------------------------------------------------- one batch

  ghost predicate VerdictListsAlike(vs: seq<Verdict>, ws: seq<Verdict>) {
    |vs| == |ws| && forall i :: 0 <= i < |vs| ==> VerdictsAlike(vs[i], ws[i])
  }

  lemma AlikeHaveBudgets(a: StoreState, b: StoreState, c: Coalition)
    requires StoresAlike(a, b, c)
    ensures c in a.budgets && c in b.budgets
  {
    hide LooksAlike, OrdersAlike;
  }

  lemma {:induction false} BatchesAlike(
      whole: bool, sc: Scenario, sim: Simulator, x: Env, y: Env, c: Coalition, known: Option<seq<KnownControlPoint>>,
      vs: seq<Verdict>, ws: seq<Verdict>, now: int)
    requires ReferencesResolve(sc) && OrdersOk(x.store.orders) && OrdersOk(y.store.orders)
    requires Shared(whole, sim, c, x.sent, y.sent) && StoresAlike(x.store, y.store, c) && VerdictListsAlike(vs, ws)
    requires Vetted(sc, ContextOf(x.store, c, known), vs) && Vetted(sc, ContextOf(y.store, c, known), ws)
    ensures var x', y' := ExecuteBatch(sc, sim, x, c, vs, now).env, ExecuteBatch(sc, sim, y, c, ws, now).env;
      Shared(whole, sim, c, x'.sent, y'.sent) && StoresAlike(x'.store, y'.store, c) && OwnStaysOwn(x.store, x'.store, c)
  {
    hide *;
    AlikeHaveBudgets(x.store, y.store, c);
    SameIds(vs, ws);
    if vs == [] {
      NothingDone(sc, sim, x, c, now);
      NothingDone(sc, sim, y, c, now);
      assert vs == [] && ws == [];
    } else {
      var n := |vs| - 1;
      var front, v := vs[..n], vs[n];
      var others, w := ws[..n], ws[n];
      assert vs == front + [v] && ws == others + [w];
      PartAlike(front, others, v, w);
      PartVetted(sc, ContextOf(x.store, c, known), front, v);
      PartVetted(sc, ContextOf(y.store, c, known), others, w);
      BatchesAlike(whole, sc, sim, x, y, c, known, front, others, now);
      BatchCompletes(sc, sim, x, c, known, front, now);
      BatchCompletes(sc, sim, y, c, known, others, now);
      LastActionAlike(whole, sc, sim, x, y, c, known, front, others, v, w, now);
    }
  }

  lemma LastActionAlike(
      whole: bool, sc: Scenario, sim: Simulator, x: Env, y: Env, c: Coalition, known: Option<seq<KnownControlPoint>>,
      front: seq<Verdict>, others: seq<Verdict>, v: Verdict, w: Verdict, now: int)
    requires ReferencesResolve(sc) && c in x.store.budgets && c in y.store.budgets && VerdictsAlike(v, w)
    requires Candidate(v) ==> WellFormed(v.params.value) && Legal(sc, ContextOf(x.store, c, known), v.params.value)
    requires Candidate(w) ==> Legal(sc, ContextOf(y.store, c, known), w.params.value)
    requires var mx := ExecuteBatch(sc, sim, x, c, front, now);
      mx.Completed? && Grown(x.store, mx.env.store) && OrdersOk(mx.env.store.orders) && OwnStaysOwn(x.store, mx.env.store, c)
    requires var my := ExecuteBatch(sc, sim, y, c, others, now);
      my.Completed? && Grown(y.store, my.env.store) && OrdersOk(my.env.store.orders)
    requires var mx, my := ExecuteBatch(sc, sim, x, c, front, now).env, ExecuteBatch(sc, sim, y, c, others, now).env;
      Shared(whole, sim, c, mx.sent, my.sent) && StoresAlike(mx.store, my.store, c)
    ensures var x' := ExecuteBatch(sc, sim, x, c, front + [v], now).env;
      var y' := ExecuteBatch(sc, sim, y, c, others + [w], now).env;
      Shared(whole, sim, c, x'.sent, y'.sent) && StoresAlike(x'.store, y'.store, c) && OwnStaysOwn(x.store, x'.store, c)
  {
    hide BuildPlan, RunPlan, Legal, WellFormed, StoresAlike, OrdersOk, Grown, ExecuteBatch, ReferencesResolve, OwnStaysOwn, Shared;
    if Candidate(v) {
      var mx, my := ExecuteBatch(sc, sim, x, c, front, now).env, ExecuteBatch(sc, sim, y, c, others, now).env;
      ActionsAlike(whole, sc, sim, mx, my, x.store, y.store, c, known, v.actionId, v.params.value, now);
      LastOfBatch(sc, sim, x, c, front, v, now);
      LastOfBatch(sc, sim, y, c, others, w, now);
    } else {
      RejectedLast(sc, sim, x, c, front, v, now);
      RejectedLast(sc, sim, y, c, others, w, now);
    }
  }

  lemma PartAlike(front: seq<Verdict>, others: seq<Verdict>, v: Verdict, w: Verdict)
    requires VerdictListsAlike(front + [v], others + [w])
    ensures VerdictListsAlike(front, others) && VerdictsAlike(v, w)
  {
    var vs, ws := front + [v], others + [w];
    assert vs[|front|] == v && ws[|others|] == w;
    hide VerdictsAlike;
    forall i | 0 <= i < |front| ensures VerdictsAlike(front[i], others[i]) {
      assert vs[i] == front[i] && ws[i] == others[i];
    }
  }

  lemma NothingDone(sc: Scenario, sim: Simulator, env: Env, c: Coalition, now: int)
    ensures ExecuteBatch(sc, sim, env, c, [], now).env == env && OwnStaysOwn(env.store, env.store, c)
  {
  }

  lemma PartVetted(sc: Scenario, ctx: Context, front: seq<Verdict>, v: Verdict)
    requires Vetted(sc, ctx, front + [v])
    ensures Vetted(sc, ctx, front)
    ensures forall w <- front :: Candidate(w) ==> WellFormed(w.params.value) && Legal(sc, ctx, w.params.value)
    ensures Candidate(v) ==> WellFormed(v.params.value) && Legal(sc, ctx, v.params.value)
  {
    var all := front + [v];
    assert all[|front|] == v && forall i :: 0 <= i < |front| ==> all[i] == front[i];
    hide Legal, WellFormed, Clash;
  }

  // ---------------------------------------------------------------------- one turn

  /** Turns of coalition c, and ingests that show both worlds the same records of its groups. */
  ghost predicate TurnsAlike(a: Turn, b: Turn, c: Coalition, st: StoreState) {
    if a.Ingest? then
      && b.Ingest?
      && forall g <- st.active :: st.active[g].coalition == c ==>
           Lookup(a.world, g) == Lookup(b.world, g) && Lookup(a.world, st.active[g].id) == Lookup(b.world, st.active[g].id)
    else a == b && a.coalition == c
  }

  lemma IngestAlike(a: StoreState, b: StoreState, c: Coalition, v: map<string, WorldGroup>, w: map<string, WorldGroup>)
    requires StoresAlike(a, b, c) && TurnsAlike(Ingest(v), Ingest(w), c, a)
    ensures StoresAlike(a.(world := v), b.(world := w), c)
  {
    var x, y := ContextOf(a, c, None), ContextOf(b, c, None);
    var x', y' := ContextOf(a.(world := v), c, None), ContextOf(b.(world := w), c, None);
    forall g | OwnGroup(x', g) || OwnGroup(y', g)
      ensures OwnGroup(x', g) && OwnGroup(y', g) && x'.active[g] == y'.active[g]
      ensures SameWorldRecord(x', y', g) && SameWorldRecord(x', y', x'.active[g].id)
    {
      assert OwnGroup(x, g) || OwnGroup(y, g);
      assert Lookup(v, g) == Lookup(w, g) && Lookup(v, x.active[g].id) == Lookup(w, x.active[g].id);
    }
    forall r | OwnReserve(x', r) || OwnReserve(y', r)
      ensures OwnReserve(x', r) && OwnReserve(y', r) && x'.reserves[r] == y'.reserves[r]
    {
      assert OwnReserve(x, r) || OwnReserve(y, r);
    }
  }

  lemma CommandAlike(whole: bool, sc: Scenario, sim: Simulator, x: Env, y: Env, turn: Turn)
    requires ReferencesResolve(sc) && OrdersOk(x.store.orders) && OrdersOk(y.store.orders) && turn.Command?
    requires Shared(whole, sim, turn.coalition, x.sent, y.sent) && StoresAlike(x.store, y.store, turn.coalition)
    ensures var x', y' := TakeTurn(sc, sim, x, turn), TakeTurn(sc, sim, y, turn);
      Shared(whole, sim, turn.coalition, x'.sent, y'.sent) && StoresAlike(x'.store, y'.store, turn.coalition)
  {
    var c := turn.coalition;
    var vs, ws := Vets(sc, x.store, turn), Vets(sc, y.store, turn);
    VetsAlike(sc, x.store, y.store, turn);
    assert c in x.store.budgets && c in y.store.budgets;
    hide Vets, Vetted, StoresAlike, ExecuteBatch, VerdictListsAlike, Shared;
    if Executes(sc, x.store, turn) {
      BatchesAlike(whole, sc, sim, x, y, c, turn.known, vs, ws, turn.now);
    }
  }

  lemma VetsAlike(sc: Scenario, a: StoreState, b: StoreState, turn: Turn)
    requires turn.Command? && StoresAlike(a, b, turn.coalition)
    ensures var c := turn.coalition;
      && VerdictListsAlike(Vets(sc, a, turn), Vets(sc, b, turn))
      && Vetted(sc, ContextOf(a, c, turn.known), Vets(sc, a, turn))
      && Vetted(sc, ContextOf(b, c, turn.known), Vets(sc, b, turn))
      && (Executes(sc, a, turn) <==> Executes(sc, b, turn))
  {
    var c := turn.coalition;
    ContextsAlike(a, b, c, turn.known);
    BatchIsBlind(sc, ContextOf(a, c, turn.known), ContextOf(b, c, turn.known), ActionList(turn.payload));
    ValidatedBatchIsVetted(sc, ContextOf(a, c, turn.known), ActionList(turn.payload));
    ValidatedBatchIsVetted(sc, ContextOf(b, c, turn.known), ActionList(turn.payload));
    hide ValidateBatch, Vetted, LooksAlike, OrdersAlike, CodesAlike;
    SameIds(Vets(sc, a, turn), Vets(sc, b, turn));
  }

  lemma SameIds(vs: seq<Verdict>, ws: seq<Verdict>)
    requires VerdictListsAlike(vs, ws)
    ensures |vs| == |ws| && ActionIds(vs) == ActionIds(ws)
  {
    forall i | 0 <= i < |vs| ensures vs[i].actionId == ws[i].actionId {
      assert VerdictsAlike(vs[i], ws[i]);
    }
  }

  // ------------------------------------------------------------------ the other side

  /** No deployment can take over a name, and rows stand under their own ids. */
  ghost predicate Named(st: StoreState) {
    NoNameClash(st) && KeyedById(st)
  }

  function OtherSide(c: Coalition): Coalition {
    if c == Red then Blue else Red
  }

  lemma NamesStay(sc: Scenario, sim: Simulator, env: Env, turn: Turn)
    requires ReferencesResolve(sc) && OrdersOk(env.store.orders) && Named(env.store)
    ensures Named(TakeTurn(sc, sim, env, turn).store)
  {
    if turn.Command? {
      TurnFrame(sc, sim, env, turn, OtherSide(turn.coalition));
    }
  }

  lemma {:induction false} BatchSendsOwn(
      sc: Scenario, sim: Simulator, env: Env, d: Coalition, known: Option<seq<KnownControlPoint>>, vs: seq<Verdict>,
      now: int, c: Coalition)
    requires ReferencesResolve(sc) && d in env.store.budgets && OrdersOk(env.store.orders) && d != c
    requires forall v <- vs :: Candidate(v) ==>
      WellFormed(v.params.value) && Legal(sc, ContextOf(env.store, d, known), v.params.value)
    ensures Of(ExecuteBatch(sc, sim, env, d, vs, now).env.sent, c) == Of(env.sent, c)
  {
    hide BuildPlan, RunPlan, Legal, WellFormed, ExecuteBatch, Of, Steps;
    if vs == [] {
      NothingDone(sc, sim, env, d, now);
      assert vs == [];
    } else {
      var front, v := vs[..|vs| - 1], vs[|vs| - 1];
      assert vs == front + [v];
      BatchSendsOwn(sc, sim, env, d, known, front, now, c);
      BatchCompletes(sc, sim, env, d, known, front, now);
      if Candidate(v) {
        var mid := ExecuteBatch(sc, sim, env, d, front, now).env;
        VettedAction(sc, sim, mid, env.store, d, known, v.actionId, v.params.value, now);
        ActionSendsOwn(sc, sim, mid, d, v.actionId, v.params.value, now, c);
        LastOfBatch(sc, sim, env, d, front, v, now);
      } else {
        RejectedLast(sc, sim, env, d, front, v, now);
      }
    }
  }

  lemma ActionSendsOwn(
      sc: Scenario, sim: Simulator, env: Env, d: Coalition, id: string, p: Params, now: int, c: Coalition)
    requires BuildPlan(sc, env.store, d, id, p, now).Some? && Steps(sc, d, p, now).Some? && WellFormed(p) && d != c
    ensures Of(RunPlan(sim, env, d, BuildPlan(sc, env.store, d, id, p, now).value).0.sent, c) == Of(env.sent, c)
  {
    ReinforceNamesGroups(p);
    PlanIsStoreFree(sc, env.store, d, id, p, now);
    RequestsAreMarked(sc, d, p);
    hide BuildPlan, Steps, Requested, WellFormed, Of;
    var plan := BuildPlan(sc, env.store, d, id, p, now).value;
    OthersSend(sim, env.sent, plan.commands, d, c);
  }

  /** A turn of the other side changes nothing that c has and sends nothing in c's name. */
  lemma EnemyTurnUnseen(sc: Scenario, sim: Simulator, env: Env, turn: Turn, c: Coalition)
    requires ReferencesResolve(sc) && OrdersOk(env.store.orders) && Named(env.store)
    requires turn.Command? && turn.coalition != c
    ensures var env' := TakeTurn(sc, sim, env, turn);
      && Of(env'.sent, c) == Of(env.sent, c)
      && HoldingsOf(env'.store, c) == HoldingsOf(env.store, c) && SameWorldOf(env.store, env'.store, c)
  {
    TurnFrame(sc, sim, env, turn, c);
    hide HoldingsOf, SameWorldOf, NoNameClash, KeyedById, Vets, ExecuteBatch, Of;
    if Executes(sc, env.store, turn) {
      TurnCompletes(sc, sim, env, turn);
      BatchSendsOwn(sc, sim, env, turn.coalition, turn.known, Vets(sc, env.store, turn), turn.now, c);
    }
  }

  /** The rows of c's groups and reserves are the same. */
  ghost predicate SameOwnRows(a: StoreState, a': StoreState, c: Coalition) {
    && (forall g :: (g in a.active && a.active[g].coalition == c) || (g in a'.active && a'.active[g].coalition == c) ==>
          g in a.active && g in a'.active && a'.active[g] == a.active[g])
    && (forall r :: (r in a.reserves && a.reserves[r].coalition == c) || (r in a'.reserves && a'.reserves[r].coalition == c) ==>
          r in a.reserves && r in a'.reserves && a'.reserves[r] == a.reserves[r])
  }

  lemma HoldingsMean(a: StoreState, a': StoreState, c: Coalition)
    requires HoldingsOf(a', c) == HoldingsOf(a, c) && c in a.budgets
    ensures c in a'.budgets && a'.budgets[c] == a.budgets[c]
    ensures SameOwnRows(a, a', c) && OrdersAlike(a'.orders, a.orders, c)
  {
    var h, h' := HoldingsOf(a, c), HoldingsOf(a', c);
    assert h.budget == h'.budget;
    forall g | (g in a.active && a.active[g].coalition == c) || (g in a'.active && a'.active[g].coalition == c)
      ensures g in a.active && g in a'.active && a'.active[g] == a.active[g]
    {
      assert g in h.active && g in h'.active && h.active[g] == h'.active[g];
    }
    forall r | (r in a.reserves && a.reserves[r].coalition == c) || (r in a'.reserves && a'.reserves[r].coalition == c)
      ensures r in a.reserves && r in a'.reserves && a'.reserves[r] == a.reserves[r]
    {
      assert r in h.reserves && r in h'.reserves && h.reserves[r] == h'.reserves[r];
    }
    forall id | (id in a.orders && a.orders[id].coalition == c) || (id in a'.orders && a'.orders[id].coalition == c)
      ensures id in a.orders && id in a'.orders && a'.orders[id] == a.orders[id]
    {
      assert id in h.orders && id in h'.orders && h.orders[id] == h'.orders[id];
    }
  }

  /** A store still looks alike after a change that leaves c's rows and records alone. */
  lemma ViewAfterOthers(a: StoreState, a': StoreState, b: StoreState, c: Coalition)
    requires c in a.budgets && c in a'.budgets && c in b.budgets && a'.budgets[c] == a.budgets[c] && KeyedById(a)
    requires LooksAlike(ContextOf(a, c, None), ContextOf(b, c, None))
    requires SameOwnRows(a, a', c) && SameWorldOf(a, a', c)
    ensures LooksAlike(ContextOf(a', c, None), ContextOf(b, c, None))
  {
    var x, x', y := ContextOf(a, c, None), ContextOf(a', c, None), ContextOf(b, c, None);
    forall g | OwnGroup(x', g) || OwnGroup(y, g)
      ensures OwnGroup(x', g) && OwnGroup(y, g) && x'.active[g] == y.active[g]
      ensures SameWorldRecord(x', y, g) && SameWorldRecord(x', y, x'.active[g].id)
    {
      assert OwnGroup(x, g) || OwnGroup(y, g);
      assert SameWorldRecord(x, y, g) && SameWorld(a, a', g);
    }
    forall r | OwnReserve(x', r) || OwnReserve(y, r)
      ensures OwnReserve(x', r) && OwnReserve(y, r) && x'.reserves[r] == y.reserves[r]
    {
      assert OwnReserve(x, r) || OwnReserve(y, r);
    }
  }

  lemma AlikeAfterOthers(a: StoreState, a': StoreState, b: StoreState, c: Coalition)
    requires StoresAlike(a, b, c) && KeyedById(a)
    requires HoldingsOf(a', c) == HoldingsOf(a, c) && SameWorldOf(a, a', c)
    ensures StoresAlike(a', b, c) && StoresAlike(b, a', c)
  {
    HoldingsMean(a, a', c);
    hide HoldingsOf, LooksAlike, SameOwnRows, SameWorldOf, KeyedById;
    ViewAfterOthers(a, a', b, c);
    AlikeIsSymmetric(a', b, c);
  }

  lemma AlikeIsSymmetric(a: StoreState, b: StoreState, c: Coalition)
    requires StoresAlike(a, b, c)
    ensures StoresAlike(b, a, c)
  {
    var x, y := ContextOf(a, c, None), ContextOf(b, c, None);
    forall g | OwnGroup(x, g) || OwnGroup(y, g)
      ensures SameWorldRecord(y, x, g) && SameWorldRecord(y, x, y.active[g].id)
    {
      assert SameWorldRecord(x, y, g) && SameWorldRecord(x, y, x.active[g].id);
    }
  }

  // --------------------------------------------------------------------- whole runs

  predicate Enemys(turn: Turn, c: Coalition) {
    turn.Command? && turn.coalition != c
  }

  /** Leaving out the other side's turns, of which each run may have any number, anywhere, with any
      payloads: c's own turns are the same, and ingests show c's groups alike. */
  ghost predicate SchedulesAlike(sc: Scenario, sim: Simulator, x: Env, c: Coalition, ts: seq<Turn>, us: seq<Turn>)
    decreases |ts| + |us|
  {
    if ts != [] && Enemys(ts[|ts| - 1], c) then SchedulesAlike(sc, sim, x, c, ts[..|ts| - 1], us)
    else if us != [] && Enemys(us[|us| - 1], c) then SchedulesAlike(sc, sim, x, c, ts, us[..|us| - 1])
    else if ts == [] || us == [] then ts == [] && us == []
    else
      && SchedulesAlike(sc, sim, x, c, ts[..|ts| - 1], us[..|us| - 1])
      && TurnsAlike(ts[|ts| - 1], us[|us| - 1], c, Run(sc, sim, x, ts[..|ts| - 1]).store)
  }

  /** How two runs stand to each other. */
  ghost predicate Abreast(whole: bool, sim: Simulator, x: Env, y: Env, c: Coalition) {
    && Shared(whole, sim, c, x.sent, y.sent) && StoresAlike(x.store, y.store, c)
    && (!whole ==> Named(x.store) && Named(y.store))
    && OrdersOk(x.store.orders) && OrdersOk(y.store.orders)
  }

  lemma EnemyTurnKeepsAbreast(sc: Scenario, sim: Simulator, x: Env, y: Env, c: Coalition, t: Turn)
    requires ReferencesResolve(sc) && Enemys(t, c)
    ensures Abreast(false, sim, x, y, c) ==> Abreast(false, sim, TakeTurn(sc, sim, x, t), y, c)
    ensures Abreast(false, sim, y, x, c) ==> Abreast(false, sim, y, TakeTurn(sc, sim, x, t), c)
  {
    if Named(x.store) && OrdersOk(x.store.orders) {
      EnemyTurnUnseen(sc, sim, x, t, c);
      NamesStay(sc, sim, x, t);
      TurnKeepsOrders(sc, sim, x, t);
      hide TakeTurn, StoresAlike, HoldingsOf, SameWorldOf, NoNameClash, OrdersOk, Of, AnswersBySide;
      if StoresAlike(y.store, x.store, c) {
        AlikeIsSymmetric(y.store, x.store, c);
      }
      if StoresAlike(x.store, y.store, c) {
        AlikeAfterOthers(x.store, TakeTurn(sc, sim, x, t).store, y.store, c);
      }
    }
  }

  lemma LastTurnAlike(whole: bool, sc: Scenario, sim: Simulator, x: Env, y: Env, c: Coalition, t: Turn, u: Turn)
    requires ReferencesResolve(sc) && Abreast(whole, sim, x, y, c) && TurnsAlike(t, u, c, x.store)
    ensures Abreast(whole, sim, TakeTurn(sc, sim, x, t), TakeTurn(sc, sim, y, u), c)
  {
    TurnKeepsOrders(sc, sim, x, t);
    TurnKeepsOrders(sc, sim, y, u);
    hide StoresAlike, Executes, Shared, OrdersOk, Named;
    if !whole {
      NamesStay(sc, sim, x, t);
      NamesStay(sc, sim, y, u);
    }
    if t.Ingest? {
      IngestAlike(x.store, y.store, c, t.world, u.world);
    } else {
      hide TakeTurn;
      CommandAlike(whole, sc, sim, x, y, t);
    }
  }

  lemma {:induction false} RunsStayAbreast(
      whole: bool, sc: Scenario, sim: Simulator, x: Env, y: Env, c: Coalition, ts: seq<Turn>, us: seq<Turn>)
    requires ReferencesResolve(sc) && Abreast(whole, sim, x, y, c) && SchedulesAlike(sc, sim, x, c, ts, us)
    requires whole ==> (forall t <- ts :: !Enemys(t, c)) && forall u <- us :: !Enemys(u, c)
    ensures Abreast(whole, sim, Run(sc, sim, x, ts), Run(sc, sim, y, us), c)
    decreases |ts| + |us|
  {
    hide TakeTurn, Abreast, TurnsAlike, Enemys;
    if ts != [] && Enemys(ts[|ts| - 1], c) {
      RunsStayAbreast(whole, sc, sim, x, y, c, ts[..|ts| - 1], us);
      EnemyTurnKeepsAbreast(sc, sim, Run(sc, sim, x, ts[..|ts| - 1]), Run(sc, sim, y, us), c, ts[|ts| - 1]);
    } else if us != [] && Enemys(us[|us| - 1], c) {
      RunsStayAbreast(whole, sc, sim, x, y, c, ts, us[..|us| - 1]);
      EnemyTurnKeepsAbreast(sc, sim, Run(sc, sim, y, us[..|us| - 1]), Run(sc, sim, x, ts), c, us[|us| - 1]);
    } else if ts != [] {
      var m, n := |ts| - 1, |us| - 1;
      RunsStayAbreast(whole, sc, sim, x, y, c, ts[..m], us[..n]);
      LastTurnAlike(whole, sc, sim, Run(sc, sim, x, ts[..m]), Run(sc, sim, y, us[..n]), c, ts[m], us[n]);
    }
  }

  /** Noninterference over whole runs: take two worlds that agree on what coalition c owns, with
      anything at all on the other side; let c give the same orders on the same pictures in both,
      and the other side any orders, any number of times, differently in each.  With a simulator
      that answers c by what c has sent, c's requests are the same in both worlds, and what c owns
      is the same ever after. */
  lemma RunsAreBlind(
      sc: Scenario, sim: Simulator, x: Env, y: Env, c: Coalition, ts: seq<Turn>, us: seq<Turn>)
    requires ReferencesResolve(sc) && OrdersOk(x.store.orders) && OrdersOk(y.store.orders)
    requires Named(x.store) && Named(y.store) && AnswersBySide(sim, c)
    requires Of(x.sent, c) == Of(y.sent, c) && StoresAlike(x.store, y.store, c)
    requires SchedulesAlike(sc, sim, x, c, ts, us)
    ensures var x', y' := Run(sc, sim, x, ts), Run(sc, sim, y, us);
      Of(x'.sent, c) == Of(y'.sent, c) && StoresAlike(x'.store, y'.store, c)
  {
    hide Of, StoresAlike, Run, SchedulesAlike, OrdersOk, Named, AnswersBySide;
    RunsStayAbreast(false, sc, sim, x, y, c, ts, us);
  }

  /** While the other side only sits there, this holds of every simulator, for all that is sent. */
  lemma LoneRunsAreBlind(
      sc: Scenario, sim: Simulator, x: Env, y: Env, c: Coalition, ts: seq<Turn>, us: seq<Turn>)
    requires ReferencesResolve(sc) && OrdersOk(x.store.orders) && OrdersOk(y.store.orders)
    requires x.sent == y.sent && StoresAlike(x.store, y.store, c)
    requires SchedulesAlike(sc, sim, x, c, ts, us)
    requires (forall t <- ts :: !Enemys(t, c)) && forall u <- us :: !Enemys(u, c)
    ensures var x', y' := Run(sc, sim, x, ts), Run(sc, sim, y, us);
      x'.sent == y'.sent && StoresAlike(x'.store, y'.store, c)
  {
    hide StoresAlike, Run, SchedulesAlike, OrdersOk;
    RunsStayAbreast(true, sc, sim, x, y, c, ts, us);
  }

  /** Any run may start there, unless its author gave a group the name of an enemy reserve's. */
  lemma FreshRunIsNamed(sc: Scenario)
    requires CreateRun(sc).Some?
    requires forall r <- sc.reserveGroups :: forall g <- sc.activeGroups :: g.id == DeployedId(r.id) ==> g.coalition == r.coalition
    ensures Named(CreateRun(sc).value) && OrdersOk(CreateRun(sc).value.orders)
  {
    hide DeployedId, SeededWorldGroup;
  }
}
