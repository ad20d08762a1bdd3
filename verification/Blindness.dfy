/** Validation tells a coalition nothing about the enemy that it does not already know: two
    stores that look alike from its side give it the same verdicts. */
module Blindness {
  import opened Domain
  import opened Requests
  import opened Validation
  import opened Working
  import opened Conflicts
  import opened Batches

  predicate OwnGroup(ctx: Context, g: string) {
    g in ctx.active && ctx.active[g].coalition == ctx.coalition
  }

  predicate OwnReserve(ctx: Context, r: string) {
    r in ctx.reserves && ctx.reserves[r].coalition == ctx.coalition
  }

  predicate SameWorldRecord(a: Context, b: Context, id: string) {
    (id in a.world <==> id in b.world) && (id in a.world ==> a.world[id] == b.world[id])
  }

  /** The two contexts agree on everything the coalition owns or was shown: its groups with
      their world records, its reserves, its budget and its control-point list.  Enemy groups,
      enemy reserves and all other world records are arbitrary. */
  ghost predicate LooksAlike(a: Context, b: Context) {
    && a.coalition == b.coalition && a.budget == b.budget && a.knownPoints == b.knownPoints
    && (forall g :: OwnGroup(a, g) || OwnGroup(b, g) ==>
          && OwnGroup(a, g) && OwnGroup(b, g) && a.active[g] == b.active[g]
          && SameWorldRecord(a, b, g) && SameWorldRecord(a, b, a.active[g].id))
    && (forall r :: OwnReserve(a, r) || OwnReserve(b, r) ==>
          OwnReserve(a, r) && OwnReserve(b, r) && a.reserves[r] == b.reserves[r])
  }

  /** The one thing that may differ: whether a foreign id is unknown or known but not owned. */
  predicate CodesAlike(a: Abort, b: Abort) {
    a == b || {a, b} == {Some(UnknownEntity), Some(EntityNotOwned)}
  }

  predicate VerdictsAlike(v: Verdict, w: Verdict) {
    v.(code := None) == w.(code := None) && CodesAlike(v.code, w.code)
  }

  // ------------------------------------------------------------------ the stages

  lemma OwnershipAlike(a: Context, b: Context, g: string)
    requires LooksAlike(a, b)
    ensures CodesAlike(OwnershipAbort(a, g), OwnershipAbort(b, g))
    ensures OwnershipAbort(a, g).None? ==> OwnGroup(a, g) && OwnGroup(b, g)
  {
    if OwnGroup(a, g) || OwnGroup(b, g) {
      assert OwnershipAbort(a, g) == OwnershipAbort(b, g);
    }
  }

  lemma {:induction false} FirstOwnershipAlike(sc: Scenario, a: Context, b: Context, p: Params, gs: seq<string>)
    requires LooksAlike(a, b)
    ensures CodesAlike(FirstGroupAbort(CoalitionStage, sc, a, p, gs), FirstGroupAbort(CoalitionStage, sc, b, p, gs))
    ensures FirstGroupAbort(CoalitionStage, sc, a, p, gs).None? ==> forall g <- gs :: OwnGroup(a, g)
  {
    hide LooksAlike, OwnershipAbort;
    if gs != [] {
      OwnershipAlike(a, b, gs[0]);
      FirstOwnershipAlike(sc, a, b, p, gs[1..]);
      assert gs == [gs[0]] + gs[1..];
    }
  }

  lemma CoalitionStageAlike(sc: Scenario, a: Context, b: Context, p: Params)
    requires LooksAlike(a, b)
    ensures CodesAlike(StageAbort(CoalitionStage, sc, a, p), StageAbort(CoalitionStage, sc, b, p))
    ensures StageAbort(CoalitionStage, sc, a, p).None? ==>
      (forall g <- NamedGroups(p) :: OwnGroup(a, g)) && (p.Deploy? ==> OwnReserve(a, p.reserveId))
  {
    FirstOwnershipAlike(sc, a, b, p, NamedGroups(p));
    if p.Deploy? {
      assert OwnReserve(a, p.reserveId) <==> OwnReserve(b, p.reserveId);
    }
  }

  lemma OwnGroupStagesEqual(stage: Stage, sc: Scenario, a: Context, b: Context, p: Params, g: string)
    requires LooksAlike(a, b) && OwnGroup(a, g)
    ensures GroupAbort(stage, sc, a, p, g) == GroupAbort(stage, sc, b, p, g)
  {
    assert SameWorldRecord(a, b, g) && SameWorldRecord(a, b, a.active[g].id);
    hide DestinationSector, IsSameOrAdjacent, NoDeploy, UnavailableGroup;
  }

  lemma {:induction false} FirstAbortEqual(stage: Stage, sc: Scenario, a: Context, b: Context, p: Params, gs: seq<string>)
    requires LooksAlike(a, b) && forall g <- gs :: OwnGroup(a, g)
    ensures FirstGroupAbort(stage, sc, a, p, gs) == FirstGroupAbort(stage, sc, b, p, gs)
  {
    hide LooksAlike, GroupAbort;
    if gs != [] {
      OwnGroupStagesEqual(stage, sc, a, b, p, gs[0]);
      FirstAbortEqual(stage, sc, a, b, p, gs[1..]);
    }
  }

  /** Once ownership has been checked, every stage sees only what the contexts share. */
  lemma LaterStagesEqual(stage: Stage, sc: Scenario, a: Context, b: Context, p: Params)
    requires LooksAlike(a, b) && StageAbort(CoalitionStage, sc, a, p).None?
    ensures StageAbort(stage, sc, a, p) == StageAbort(stage, sc, b, p)
  {
    CoalitionStageAlike(sc, a, b, p);
    FirstAbortEqual(stage, sc, a, b, p, NamedGroups(p));
    assert p.Deploy? ==> OwnReserve(b, p.reserveId) && a.reserves[p.reserveId] == b.reserves[p.reserveId];
    hide FirstGroupAbort, NoDeploy, Deployable, Contains;
  }

  // ------------------------------------------------------------------ one action

  lemma {:induction false} StagesEqual(v: Verdict, n: nat, sc: Scenario, a: Context, b: Context)
    requires v.params.Some? && n <= |STAGES| && LooksAlike(a, b)
    requires StageAbort(CoalitionStage, sc, a, v.params.value).None?
    ensures AfterStages(v, n, sc, a) == AfterStages(v, n, sc, b)
  {
    hide StageAbort, LooksAlike;
    if n > 0 {
      StagesEqual(v, n - 1, sc, a, b);
      LaterStagesEqual(STAGES[n - 1], sc, a, b, v.params.value);
    }
  }

  lemma ObjectionEnds(v: Verdict, sc: Scenario, ctx: Context)
    requires v.params.Some? && v.status != Rejected && StageAbort(CoalitionStage, sc, ctx, v.params.value).Some?
    ensures AfterStages(v, |STAGES|, sc, ctx) ==
            v.(status := Rejected, code := StageAbort(CoalitionStage, sc, ctx, v.params.value))
  {
    hide StageAbort;
    assert STAGES[0] == CoalitionStage;
    assert AfterStages(v, 0, sc, ctx) == v;
    RejectionIsFinal(v, 1, sc, ctx);
  }

  lemma ValidatedAlike(raw: RawAction, sc: Scenario, a: Context, b: Context)
    requires LooksAlike(a, b)
    ensures VerdictsAlike(Validated(raw, sc, a), Validated(raw, sc, b))
  {
    hide ParseRequest, StageAbort, LooksAlike, AfterStages;
    var parsed := ParsedVerdict(raw, a.coalition);
    assert a.coalition == b.coalition by { AlikeCoalition(a, b); }
    if parsed.params.Some? {
      var p := parsed.params.value;
      CoalitionStageAlike(sc, a, b, p);
      if StageAbort(CoalitionStage, sc, a, p).None? {
        StagesEqual(parsed, |STAGES|, sc, a, b);
      } else {
        ObjectionEnds(parsed, sc, a);
        ObjectionEnds(parsed, sc, b);
      }
    }
  }

  lemma AlikeCoalition(a: Context, b: Context)
    requires LooksAlike(a, b)
    ensures a.coalition == b.coalition
  {
  }

  // ------------------------------------------------------------------ a whole batch

  lemma {:induction false} KeptAlike(vs: seq<Verdict>, ws: seq<Verdict>)
    requires |vs| == |ws| && forall i :: 0 <= i < |vs| ==> VerdictsAlike(vs[i], ws[i])
    ensures Kept(vs) == Kept(ws)
  {
    if vs != [] {
      KeptAlike(vs[..|vs| - 1], ws[..|vs| - 1]);
    }
  }

  /** Validation is blind to the enemy: for every payload, two contexts that look alike give
      the same statuses, normalized parameters, warnings, passed stages and conflict outcomes.
      Rejection codes agree up to exchanging "unknown entity" and "entity not owned". */
  lemma BatchIsBlind(sc: Scenario, a: Context, b: Context, payload: seq<RawAction>)
    requires LooksAlike(a, b)
    ensures var vs, ws := ValidateBatch(sc, a, payload), ValidateBatch(sc, b, payload);
      |vs| == |ws| && forall i :: 0 <= i < |vs| ==> VerdictsAlike(vs[i], ws[i])
  {
    hide Validated, LooksAlike;
    forall i | 0 <= i < |payload| {
      ValidatedAlike(payload[i], sc, a, b);
    }
    KeptAlike(ValidateEach(sc, a, payload), ValidateEach(sc, b, payload));
  }

  /** The exception is real, for every order that names a group or a reserve: the code of the
      refusal tells whether the first foreign id it names exists.  (A reinforcement also has to name
      a point the coalition may reinforce, which is looked at first.) */
  lemma {:induction false} CodeTellsExistence(sc: Scenario, ctx: Context, p: Params, k: nat)
    requires k < |NamedGroups(p)| && !OwnGroup(ctx, NamedGroups(p)[k])
    requires (forall i :: 0 <= i < k ==> Owned(ctx, NamedGroups(p)[i])) && EntityAbort(CoalitionStage, sc, ctx, p).None?
    ensures StageAbort(CoalitionStage, sc, ctx, p) ==
            Some(if NamedGroups(p)[k] in ctx.active then EntityNotOwned else UnknownEntity)
  {
    FirstForeign(sc, ctx, p, NamedGroups(p), k);
  }

  lemma {:induction false} FirstForeign(sc: Scenario, ctx: Context, p: Params, gs: seq<string>, k: nat)
    requires k < |gs| && !OwnGroup(ctx, gs[k]) && forall i :: 0 <= i < k ==> Owned(ctx, gs[i])
    ensures FirstGroupAbort(CoalitionStage, sc, ctx, p, gs) ==
            Some(if gs[k] in ctx.active then EntityNotOwned else UnknownEntity)
  {
    if k > 0 {
      FirstForeign(sc, ctx, p, gs[1..], k - 1);
    }
  }

  lemma ReserveCodeTellsExistence(sc: Scenario, ctx: Context, p: Params)
    requires p.Deploy? && !OwnReserve(ctx, p.reserveId)
    ensures StageAbort(CoalitionStage, sc, ctx, p) ==
            Some(if p.reserveId in ctx.reserves then EntityNotOwned else UnknownEntity)
  {
  }
}
