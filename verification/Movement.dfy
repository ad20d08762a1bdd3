/** How far groups can get: one neighbour edge per batch, and nowhere at all if immobile. */
module Movement {
  import opened Domain
  import opened Requests
  import opened Validation
  import opened Working
  import opened Conflicts
  import opened StateStore
  import opened Planning
  import opened Engine
  import opened Orders
  import opened Atoms
  import opened Batches
  import opened Effects
  import opened Runs
  import opened Frames

  /** A group whose own record and world record agree on a known sector, and whose control
      point, if it has one, lies in that sector. */
  ghost predicate GroupPlaced(sc: Scenario, st: StoreState, g: string)
    requires g in st.active
  {
    var group := st.active[g];
    && group.id == g && group.sectorId.Some?
    && g in st.world && st.world[g].sectorId == group.sectorId
    && (group.controlPointId.Some? ==>
          var point := FindControlPoint(sc.controlPoints, group.controlPointId.value);
          point.Some? && Some(point.value.sectorId) == group.sectorId)
  }

  ghost predicate Placed(sc: Scenario, st: StoreState) {
    forall g <- st.active :: GroupPlaced(sc, st, g)
  }

  /** A reserve that can still be deployed has not used up its map id. */
  ghost predicate FreshDeploys(st: StoreState) {
    forall r <- st.reserves :: Deployable(st.reserves[r]) ==> DeployedId(r) !in st.active
  }

  ghost predicate Claimed(vs: seq<Verdict>, g: string) {
    exists v <- vs :: Candidate(v) && g in MovementGroups(v.params.value)
  }

  ghost predicate Deploys(vs: seq<Verdict>, g: string) {
    exists v <- vs :: Candidate(v) && v.params.value.Deploy? && g == DeployedId(v.params.value.reserveId)
  }

  predicate SamePosition(a: ActiveGroup, b: ActiveGroup) {
    a.sectorId == b.sectorId && a.controlPointId == b.controlPointId
  }

  /** Where one group may be in the middle of a batch: untouched unless an action of the batch
      claimed it, and then at most one edge away and not moved at all if immobile. */
  ghost predicate OneHop(sc: Scenario, before: ActiveGroup, after: ActiveGroup, claimed: bool) {
    && after.mobile == before.mobile
    && (!claimed ==> SamePosition(before, after))
    && before.sectorId.Some? && after.sectorId.Some?
    && IsSameOrAdjacent(sc, before.sectorId.value, after.sectorId.value)
    && (!before.mobile ==> SamePosition(before, after))
  }

  ghost predicate MidBatch(sc: Scenario, st: StoreState, mid: StoreState, vs: seq<Verdict>) {
    && Placed(sc, mid) && FreshDeploys(mid)
    && (forall g <- st.active :: g in mid.active && OneHop(sc, st.active[g], mid.active[g], Claimed(vs, g)))
    && (forall g <- mid.active :: g in st.active || Deploys(vs, g))
  }

  lemma MoreClaims(vs: seq<Verdict>, v: Verdict, g: string)
    ensures Claimed(vs + [v], g) <==> Claimed(vs, g) || (Candidate(v) && g in MovementGroups(v.params.value))
    ensures Deploys(vs + [v], g) <==>
              Deploys(vs, g) || (Candidate(v) && v.params.value.Deploy? && g == DeployedId(v.params.value.reserveId))
  {
    var vs' := vs + [v];
    assert vs'[|vs|] == v;
    if Claimed(vs, g) {
      var w :| w in vs && Candidate(w) && g in MovementGroups(w.params.value);
      assert w in vs';
    }
    if Deploys(vs, g) {
      var w :| w in vs && Candidate(w) && w.params.value.Deploy? && g == DeployedId(w.params.value.reserveId);
      assert w in vs';
    }
  }

  /** Surviving actions never claim a group twice, nor deploy a reserve twice. */
  lemma SurvivorsDoNotOverlap(vs: seq<Verdict>, p: Params)
    requires forall w <- vs :: Candidate(w) ==> !Clash(w.params.value, p)
    ensures forall g <- MovementGroups(p) :: !Claimed(vs, g)
    ensures p.Deploy? ==> !Deploys(vs, DeployedId(p.reserveId))
  {
    if p.Deploy? && Deploys(vs, DeployedId(p.reserveId)) {
      var w :| w in vs && Candidate(w) && w.params.value.Deploy? && DeployedId(p.reserveId) == DeployedId(w.params.value.reserveId);
      DeployedIdInjective(p.reserveId, w.params.value.reserveId);
    }
  }

  predicate Destined(sc: Scenario, group: ActiveGroup, t: DestinationType, d: string) {
    var sector := DestinationSector(sc, t, d);
    sector.Ok? && group.sectorId.Some? && IsSameOrAdjacent(sc, group.sectorId.value, sector.value) && group.mobile
  }

  /** What legality at the start of the batch says about one moving group. */
  lemma LegalMover(sc: Scenario, st: StoreState, c: Coalition, known: Option<seq<KnownControlPoint>>, p: Params, g: string)
    requires c in st.budgets && Placed(sc, st) && Legal(sc, ContextOf(st, c, known), p) && g in MovementGroups(p)
    ensures g in st.active && st.active[g].sectorId.Some?
    ensures match p
      case Reposition(_, t, d) => Destined(sc, st.active[g], t, d)
      case Withdraw(_, t, d) => Destined(sc, st.active[g], t, d)
      case Reinforce(cp, _, _) =>
        var point := FindControlPoint(sc.controlPoints, cp);
        && point.Some? && IsSameOrAdjacent(sc, st.active[g].sectorId.value, point.value.sectorId)
        && (st.active[g].mobile || st.active[g].controlPointId == Some(cp))
      case _ => true
  {
    hide Contains, NoDeploy, UnavailableGroup, ReinforcementTarget, Deployable, IsSameOrAdjacent, DestinationSector;
    assert g in NamedGroups(p) && GroupLegal(sc, ContextOf(st, c, known), p, g);
    assert GroupPlaced(sc, st, g);
    assert SourceSector(ContextOf(st, c, known), st.active[g]) == st.active[g].sectorId;
  }

  /** What legality at the start of the batch says about the target of a movement. */
  lemma LegalTarget(sc: Scenario, st: StoreState, c: Coalition, known: Option<seq<KnownControlPoint>>, p: Params, g: string)
    requires ReferencesResolve(sc) && c in st.budgets && Placed(sc, st)
    requires Legal(sc, ContextOf(st, c, known), p) && g in MovementGroups(p) && Target(sc, p).Some?
    ensures g in st.active
    ensures var (sector, point) := Target(sc, p).value;
      && IsSameOrAdjacent(sc, st.active[g].sectorId.value, sector.id)
      && (!st.active[g].mobile ==> st.active[g].sectorId == Some(sector.id) && st.active[g].controlPointId == point)
  {
    hide Legal, IsSameOrAdjacent, NoDeploy, Contains, ReferencesResolve;
    LegalMover(sc, st, c, known, p, g);
    assert GroupPlaced(sc, st, g);
    hide Placed;
  }

  lemma TargetPointInSector(sc: Scenario, p: Params)
    requires Target(sc, p).Some?
    ensures var (sector, point) := Target(sc, p).value;
      point.Some? ==>
        && FindControlPoint(sc.controlPoints, point.value).Some?
        && FindControlPoint(sc.controlPoints, point.value).value.sectorId == sector.id
  {
  }

  lemma GroupAfterMove(
      sc: Scenario, st: StoreState, mid: StoreState, mid': StoreState, c: Coalition, known: Option<seq<KnownControlPoint>>,
      p: Params, vs: seq<Verdict>, g: string)
    requires ReferencesResolve(sc) && c in st.budgets && Placed(sc, st) && MidBatch(sc, st, mid, vs)
    requires Legal(sc, ContextOf(st, c, known), p) && g in MovementGroups(p) && Target(sc, p).Some? && !Claimed(vs, g)
    requires g in mid.active && g in mid'.active
    requires GroupMoved(mid, mid', g, Target(sc, p).value.0, Target(sc, p).value.1, NewPosture(p))
    ensures g in st.active && OneHop(sc, st.active[g], mid'.active[g], true) && GroupPlaced(sc, mid', g)
  {
    LegalTarget(sc, st, c, known, p, g);
    TargetPointInSector(sc, p);
  }

  lemma MovementNext(
      sc: Scenario, st: StoreState, mid: StoreState, mid': StoreState, c: Coalition, known: Option<seq<KnownControlPoint>>,
      vs: seq<Verdict>, v: Verdict)
    requires ReferencesResolve(sc) && c in st.budgets && Placed(sc, st) && MidBatch(sc, st, mid, vs)
    requires Candidate(v) && Legal(sc, ContextOf(st, c, known), v.params.value)
    requires v.params.value.Reposition? || v.params.value.Withdraw? || v.params.value.Reinforce?
    requires forall w <- vs :: Candidate(w) ==> !Clash(w.params.value, v.params.value)
    requires GroupEffect(sc, c, v.params.value, mid, mid') && FundsEffect(c, v.params.value, mid, mid')
    ensures MidBatch(sc, st, mid', vs + [v])
  {
    var p := v.params.value;
    SurvivorsDoNotOverlap(vs, p);
    assert SomeMoved(mid, mid', MovementGroups(p), Target(sc, p).value.0, Target(sc, p).value.1, NewPosture(p));
    hide Legal, Target, Clash, GroupEffect;
    forall g | g in mid'.active
      ensures GroupPlaced(sc, mid', g)
      ensures g in st.active ==> OneHop(sc, st.active[g], mid'.active[g], Claimed(vs + [v], g))
      ensures g in st.active || Deploys(vs + [v], g)
    {
      MoreClaims(vs, v, g);
      assert GroupPlaced(sc, mid, g);
      if !SameGroup(mid, mid', g) {
        GroupAfterMove(sc, st, mid, mid', c, known, p, vs, g);
      }
    }
  }

  lemma DeployNext(
      sc: Scenario, st: StoreState, mid: StoreState, mid': StoreState, c: Coalition, known: Option<seq<KnownControlPoint>>,
      vs: seq<Verdict>, v: Verdict)
    requires c in st.budgets && FreshDeploys(st) && MidBatch(sc, st, mid, vs)
    requires Candidate(v) && Legal(sc, ContextOf(st, c, known), v.params.value) && v.params.value.Deploy?
    requires forall w <- vs :: Candidate(w) ==> !Clash(w.params.value, v.params.value)
    requires GroupEffect(sc, c, v.params.value, mid, mid') && FundsEffect(c, v.params.value, mid, mid')
    ensures MidBatch(sc, st, mid', vs + [v])
  {
    var p := v.params.value;
    var id := DeployedId(p.reserveId);
    SurvivorsDoNotOverlap(vs, p);
    assert id !in st.active && id !in mid.active;
    forall g | g in mid'.active
      ensures GroupPlaced(sc, mid', g)
      ensures g in st.active ==> OneHop(sc, st.active[g], mid'.active[g], Claimed(vs + [v], g))
      ensures g in st.active || Deploys(vs + [v], g)
    {
      MoreClaims(vs, v, g);
      assert g in mid.active ==> GroupPlaced(sc, mid, g);
    }
    forall r | r in mid'.reserves && Deployable(mid'.reserves[r]) ensures DeployedId(r) !in mid'.active {
      DeployedIdInjective(r, p.reserveId);
    }
  }

  lemma OtherNext(
      sc: Scenario, st: StoreState, mid: StoreState, mid': StoreState, c: Coalition, vs: seq<Verdict>, v: Verdict)
    requires MidBatch(sc, st, mid, vs) && Candidate(v)
    requires v.params.value.Hold? || v.params.value.Prioritize? || v.params.value.ChangePosture?
    requires GroupEffect(sc, c, v.params.value, mid, mid') && FundsEffect(c, v.params.value, mid, mid')
    ensures MidBatch(sc, st, mid', vs + [v])
  {
    hide IsSameOrAdjacent, Target, Claimed, Deploys, DeployedId;
    forall g | g in mid'.active
      ensures GroupPlaced(sc, mid', g)
      ensures g in st.active ==> OneHop(sc, st.active[g], mid'.active[g], Claimed(vs + [v], g))
      ensures g in st.active || Deploys(vs + [v], g)
    {
      MoreClaims(vs, v, g);
      assert GroupPlaced(sc, mid, g);
    }
  }

  lemma SkipNext(sc: Scenario, st: StoreState, mid: StoreState, vs: seq<Verdict>, v: Verdict)
    requires MidBatch(sc, st, mid, vs) && !Candidate(v)
    ensures MidBatch(sc, st, mid, vs + [v])
  {
    forall g {
      MoreClaims(vs, v, g);
    }
  }

  lemma {:induction false} BatchMoves(
      sc: Scenario, sim: Simulator, env: Env, c: Coalition, known: Option<seq<KnownControlPoint>>, vs: seq<Verdict>, now: int)
    requires ReferencesResolve(sc) && c in env.store.budgets && OrdersOk(env.store.orders)
    requires Vetted(sc, ContextOf(env.store, c, known), vs)
    requires Placed(sc, env.store) && FreshDeploys(env.store)
    ensures MidBatch(sc, env.store, ExecuteBatch(sc, sim, env, c, vs, now).env.store, vs)
  {
    if vs != [] {
      hide ExecuteBatch, Effect, GroupEffect, FundsEffect, MidBatch, Legal, WellFormed, Placed, FreshDeploys;
      var front, v := vs[..|vs| - 1], vs[|vs| - 1];
      assert vs == front + [v];
      BatchMoves(sc, sim, env, c, known, front, now);
      var mid, end := BatchLastStep(sc, sim, env, c, known, vs, now);
      if Candidate(v) {
        EffectParts(sc, c, v.params.value, mid, end);
        if v.params.value.Deploy? {
          DeployNext(sc, env.store, mid, end, c, known, front, v);
        } else if v.params.value.Hold? || v.params.value.Prioritize? || v.params.value.ChangePosture? {
          OtherNext(sc, env.store, mid, end, c, front, v);
        } else {
          MovementNext(sc, env.store, mid, end, c, known, front, v);
        }
      } else {
        SkipNext(sc, env.store, mid, front, v);
      }
    }
  }

  // ------------------------------------------------------------------- whole runs

  /** b is reached from a over at most n directed neighbour edges. */
  ghost predicate WithinHops(sc: Scenario, a: string, b: string, n: nat)
    decreases n
  {
    if n == 0 then a == b else exists via :: WithinHops(sc, a, via, n - 1) && IsSameOrAdjacent(sc, via, b)
  }

  ghost predicate Reached(sc: Scenario, before: ActiveGroup, after: ActiveGroup, n: nat) {
    && after.mobile == before.mobile
    && before.sectorId.Some? && after.sectorId.Some?
    && WithinHops(sc, before.sectorId.value, after.sectorId.value, n)
    && (!before.mobile ==> SamePosition(before, after))
  }

  /** One turn takes every group over at most one edge. */
  lemma TurnMoves(sc: Scenario, sim: Simulator, env: Env, turn: Turn)
    requires ReferencesResolve(sc) && OrdersOk(env.store.orders)
    requires Placed(sc, env.store) && FreshDeploys(env.store) && turn.Command?
    ensures var end := TakeTurn(sc, sim, env, turn).store;
      && Placed(sc, end) && FreshDeploys(end)
      && forall g <- env.store.active :: g in end.active && OneHop(sc, env.store.active[g], end.active[g], true)
  {
    var end := TakeTurn(sc, sim, env, turn).store;
    if Executes(sc, env.store, turn) {
      hide Placed, FreshDeploys;
      TurnCompletes(sc, sim, env, turn);
      var vs := Vets(sc, env.store, turn);
      BatchMoves(sc, sim, env, turn.coalition, turn.known, vs, turn.now);
      hide TakeTurn, Executes, Vets, IsSameOrAdjacent;
      assert forall g <- env.store.active :: OneHop(sc, env.store.active[g], end.active[g], Claimed(vs, g));
    } else {
      assert forall g <- env.store.active :: GroupPlaced(sc, env.store, g);
    }
  }

  lemma OneHopMore(sc: Scenario, a: ActiveGroup, b: ActiveGroup, c: ActiveGroup, n: nat, claimed: bool)
    requires Reached(sc, a, b, n) && OneHop(sc, b, c, claimed)
    ensures Reached(sc, a, c, n + 1)
  {
    assert WithinHops(sc, a.sectorId.value, b.sectorId.value, n);
  }

  /** Hop bound and immobility over runs without ingest: after n batches every group is at
      most n directed neighbour edges from where it started, immobile groups are exactly
      where they were, and positions stay consistent. */
  lemma {:induction false} HopBound(sc: Scenario, sim: Simulator, env: Env, turns: seq<Turn>)
    requires ReferencesResolve(sc) && OrdersOk(env.store.orders)
    requires Placed(sc, env.store) && FreshDeploys(env.store)
    requires forall t <- turns :: t.Command?
    ensures var end := Run(sc, sim, env, turns).store;
      && Placed(sc, end) && FreshDeploys(end)
      && forall g <- env.store.active ::
           g in end.active && Reached(sc, env.store.active[g], end.active[g], |turns|)
  {
    if turns == [] {
      assert forall g <- env.store.active :: GroupPlaced(sc, env.store, g);
    } else {
      var front, turn := turns[..|turns| - 1], turns[|turns| - 1];
      HopBound(sc, sim, env, front);
      RunKeepsOrders(sc, sim, env, front);
      var mid := Run(sc, sim, env, front);
      TurnMoves(sc, sim, mid, turn);
      hide TakeTurn, Reached, OneHop, Placed, FreshDeploys;
      var end := Run(sc, sim, env, turns);
      forall g | g in env.store.active
        ensures g in end.store.active && Reached(sc, env.store.active[g], end.store.active[g], |turns|)
      {
        assert Reached(sc, env.store.active[g], mid.store.active[g], |front|);
        OneHopMore(sc, env.store.active[g], mid.store.active[g], end.store.active[g], |front|, true);
      }
    }
  }

  /** A fresh run satisfies the hypotheses of the hop bound when the authored groups do. */
  lemma FreshRunIsPlaced(sc: Scenario)
    requires CreateRun(sc).Some?
    requires forall g <- sc.activeGroups ::
      g.sectorId.Some? && (g.controlPointId.Some? ==>
        var point := FindControlPoint(sc.controlPoints, g.controlPointId.value);
        point.Some? && Some(point.value.sectorId) == g.sectorId)
    requires forall r <- sc.reserveGroups :: forall g <- sc.activeGroups :: g.id != DeployedId(r.id)
    ensures Placed(sc, CreateRun(sc).value) && FreshDeploys(CreateRun(sc).value)
  {
  }

  /** Unused map ids are a real condition: an accepted deployment under the id of a group that is
      already there keeps that group within one edge if and only if it happens to go no further. */
  lemma DeployIsAHopIff(
      sc: Scenario, sim: Simulator, env: Env, c: Coalition, known: Option<seq<KnownControlPoint>>, actionId: string,
      p: Params, now: int)
    requires ReferencesResolve(sc) && c in env.store.budgets && OrdersOk(env.store.orders) && AcceptsAll(sim)
    requires p.Deploy? && WellFormed(p) && Legal(sc, ContextOf(env.store, c, known), p)
    requires DeployedId(p.reserveId) in env.store.active
    ensures BuildPlan(sc, env.store, c, actionId, p, now).Some?
    ensures var st' := RunPlan(sim, env, c, BuildPlan(sc, env.store, c, actionId, p, now).value).0.store;
      var before := env.store.active[DeployedId(p.reserveId)];
      && DeployedId(p.reserveId) in st'.active
      && (OneHop(sc, before, st'.active[DeployedId(p.reserveId)], true) <==>
            before.mobile && before.sectorId.Some? && IsSameOrAdjacent(sc, before.sectorId.value, p.targetSectorId))
  {
    hide RunPlan, WellFormed, Steps, Effective, PerformAll, DeployPlan, IsSameOrAdjacent, Legal;
    VettedAction(sc, sim, env, env.store, c, known, actionId, p, now);
    AcceptedDeploy(sc, sim, env, c, actionId, p, now);
  }
}
