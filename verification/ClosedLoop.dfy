/** The whole loop of one side, from the picture it is shown to the orders it gives and what they do:
    nothing hidden from it ever shows in any of the three. */
module ClosedLoop {
  import opened Domain
  import opened Requests
  import opened StateStore
  import opened Engine
  import opened Orders
  import opened Batches
  import opened Runs
  import opened Blindness
  import opened Fusion
  import opened Observation
  import opened Secrecy
  import opened Noninterference
  import Ordering

  /** A commander is any function of all the pictures it has been shown. */
  type Commander = seq<Picture> -> Json

  /** What can happen, seen from one side: an ingest, a turn of the other side, or its own cycle, in which
      it is shown the world and answers. */
  datatype Round =
    | Reported(world: map<string, WorldGroup>)
    | Theirs(turn: Turn)
    | Ours(view: WorldSnapshot, own: OwnSide, cycle: int, elapsed: int, now: int)

  datatype Game = Game(env: Env, shown: seq<Picture>)

  datatype Side = Side(scenario: Scenario, policy: Policy, coalition: Coalition, commander: Commander)

  /** The stored picture of the latest cycle among those that count, the last one stored on ties. */
  function Latest(shown: seq<Picture>, counts: Picture -> bool): Option<Picture> {
    if shown == [] then None
    else
      var before, last := Latest(shown[..|shown| - 1], counts), shown[|shown| - 1];
      if counts(last) && (before.None? || before.value.cycle <= last.cycle) then Some(last) else before
  }

  function Previous(shown: seq<Picture>, cycle: int): Option<Picture> {
    Latest(shown, (p: Picture) => p.cycle < cycle)
  }

  /** The control points the validator goes by: those of the latest picture. */
  function Known(shown: seq<Picture>): Option<seq<KnownControlPoint>> {
    var latest := Latest(shown, (p: Picture) => true);
    if latest.Some? then Some(latest.value.knownPoints) else None
  }

  function PictureOf(side: Side, shown: seq<Picture>, r: Round): Picture
    requires r.Ours?
  {
    Observe(side.scenario, side.policy, r.view, r.own, side.coalition, r.cycle, r.elapsed, Previous(shown, r.cycle), r.now)
  }

  /** The turn a commander takes on being shown a picture. */
  function Answer(side: Side, shown: seq<Picture>, now: int): Turn
  {
    Command(side.coalition, Known(shown), side.commander(shown), now)
  }

  function PlayRound(side: Side, sim: Simulator, g: Game, r: Round): Game {
    match r
    case Reported(world) => g.(env := TakeTurn(side.scenario, sim, g.env, Ingest(world)))
    case Theirs(turn) => g.(env := TakeTurn(side.scenario, sim, g.env, turn))
    case Ours(_, _, _, _, now) =>
      var shown := g.shown + [PictureOf(side, g.shown, r)];
      Game(TakeTurn(side.scenario, sim, g.env, Answer(side, shown, now)), shown)
  }

  function Play(side: Side, sim: Simulator, g: Game, rounds: seq<Round>): Game {
    if rounds == [] then g
    else PlayRound(side, sim, Play(side, sim, g, rounds[..|rounds| - 1]), rounds[|rounds| - 1])
  }

  // --------------------------------------------------------------------------- own rows

  /** What is shown is the store, its own rows listed by id, as the store lists them. */
  ghost predicate ShowsStore(st: StoreState, r: Round, c: Coalition)
    requires r.Ours?
  {
    && Holds(st, r.view, r.own, c)
    && Ordering.StrictlyAscending(r.own.active, (g: ActiveGroup) => g.id)
    && Ordering.StrictlyAscending(r.own.reserves, (g: ReserveGroup) => g.id)
  }

  /** What the run never changes in a coalition's state. */
  function Authored(s: CoalitionState): CoalitionState {
    s.(budgetRemaining := 0)
  }

  lemma OwnRowsAgree(a: StoreState, b: StoreState, c: Coalition, r: Round, q: Round)
    requires r.Ours? && q.Ours? && StoresAlike(a, b, c) && ShowsStore(a, r, c) && ShowsStore(b, q, c)
    requires Authored(r.own.state) == Authored(q.own.state)
    ensures r.own == q.own
  {
    var x, y := ContextOf(a, c, None), ContextOf(b, c, None);
    forall g ensures g in r.own.active <==> g in q.own.active {
      assert OwnGroup(x, g.id) || OwnGroup(y, g.id) ==> a.active[g.id] == b.active[g.id];
    }
    forall g ensures g in r.own.reserves <==> g in q.own.reserves {
      assert OwnReserve(x, g.id) || OwnReserve(y, g.id) ==> a.reserves[g.id] == b.reserves[g.id];
    }
    Ordering.ListingIsUnique(r.own.active, q.own.active, (g: ActiveGroup) => g.id);
    Ordering.ListingIsUnique(r.own.reserves, q.own.reserves, (g: ReserveGroup) => g.id);
  }

  // ---------------------------------------------------------------------------- two games

  predicate OfOther(r: Round, c: Coalition) {
    r.Theirs? && Enemys(r.turn, c)
  }

  /** The two worlds tell side c the same: ingests show its groups alike, and what its observer sees
      differs in hidden groups only. */
  ghost predicate RoundsAlike(c: Coalition, a: StoreState, r: Round, b: StoreState, q: Round) {
    || (r.Reported? && q.Reported? && TurnsAlike(Ingest(r.world), Ingest(q.world), c, a))
    || (&& r.Ours? && q.Ours? && r.cycle == q.cycle && r.elapsed == q.elapsed && r.now == q.now
        && ShowsStore(a, r, c) && ShowsStore(b, q, c) && Authored(r.own.state) == Authored(q.own.state)
        && SameButHidden(r.view, q.view, c, set g <- r.own.active :: g.id))
  }

  /** Leaving out the other side's turns, of which each world may have any number, with any payloads. */
  ghost predicate GamesAlike(side: Side, sim: Simulator, x: Game, y: Game, rs: seq<Round>, qs: seq<Round>)
    decreases |rs| + |qs|
  {
    if rs != [] && OfOther(rs[|rs| - 1], side.coalition) then GamesAlike(side, sim, x, y, rs[..|rs| - 1], qs)
    else if qs != [] && OfOther(qs[|qs| - 1], side.coalition) then GamesAlike(side, sim, x, y, rs, qs[..|qs| - 1])
    else if rs == [] || qs == [] then rs == [] && qs == []
    else
      var m, n := |rs| - 1, |qs| - 1;
      && GamesAlike(side, sim, x, y, rs[..m], qs[..n])
      && RoundsAlike(side.coalition, Play(side, sim, x, rs[..m]).env.store, rs[m], Play(side, sim, y, qs[..n]).env.store, qs[n])
  }

  /** How two games stand to each other. */
  ghost predicate Level(side: Side, sim: Simulator, x: Game, y: Game) {
    x.shown == y.shown && Abreast(false, sim, x.env, y.env, side.coalition)
  }

  /** The same picture is shown, so the same orders are given. */
  lemma OursAlike(side: Side, sim: Simulator, x: Game, y: Game, r: Round, q: Round)
    requires ReferencesResolve(side.scenario) && Level(side, sim, x, y) && r.Ours?
    requires RoundsAlike(side.coalition, x.env.store, r, y.env.store, q)
    ensures Level(side, sim, PlayRound(side, sim, x, r), PlayRound(side, sim, y, q))
  {
    var c := side.coalition;
    hide StoresAlike, ShowsStore, SameButHidden, Observe, Shared, Named, OrdersOk, TakeTurn, ReferencesResolve;
    OwnRowsAgree(x.env.store, y.env.store, c, r, q);
    PictureIsBlind(side.scenario, side.policy, r.view, q.view, r.own, c, r.cycle, r.elapsed, Previous(x.shown, r.cycle), r.now);
    var shown := x.shown + [PictureOf(side, x.shown, r)];
    var turn := Answer(side, shown, r.now);
    LastTurnAlike(false, side.scenario, sim, x.env, y.env, c, turn, turn);
  }

  lemma ReportedAlike(side: Side, sim: Simulator, x: Game, y: Game, r: Round, q: Round)
    requires ReferencesResolve(side.scenario) && Level(side, sim, x, y) && r.Reported?
    requires RoundsAlike(side.coalition, x.env.store, r, y.env.store, q)
    ensures Level(side, sim, PlayRound(side, sim, x, r), PlayRound(side, sim, y, q))
  {
    hide Abreast, TakeTurn, ReferencesResolve;
    LastTurnAlike(false, side.scenario, sim, x.env, y.env, side.coalition, Ingest(r.world), Ingest(q.world));
  }

  lemma TheirsUnseen(side: Side, sim: Simulator, x: Game, y: Game, r: Round)
    requires ReferencesResolve(side.scenario) && OfOther(r, side.coalition)
    ensures Level(side, sim, x, y) ==> Level(side, sim, PlayRound(side, sim, x, r), y)
    ensures Level(side, sim, y, x) ==> Level(side, sim, y, PlayRound(side, sim, x, r))
  {
    hide Abreast, TakeTurn, ReferencesResolve;
    EnemyTurnKeepsAbreast(side.scenario, sim, x.env, y.env, side.coalition, r.turn);
  }

  lemma {:induction false} GamesStayLevel(side: Side, sim: Simulator, x: Game, y: Game, rs: seq<Round>, qs: seq<Round>)
    requires ReferencesResolve(side.scenario) && Level(side, sim, x, y) && GamesAlike(side, sim, x, y, rs, qs)
    ensures Level(side, sim, Play(side, sim, x, rs), Play(side, sim, y, qs))
    decreases |rs| + |qs|
  {
    hide PlayRound, Level, RoundsAlike, ReferencesResolve, OfOther;
    if rs != [] && OfOther(rs[|rs| - 1], side.coalition) {
      GamesStayLevel(side, sim, x, y, rs[..|rs| - 1], qs);
      TheirsUnseen(side, sim, Play(side, sim, x, rs[..|rs| - 1]), Play(side, sim, y, qs), rs[|rs| - 1]);
    } else if qs != [] && OfOther(qs[|qs| - 1], side.coalition) {
      GamesStayLevel(side, sim, x, y, rs, qs[..|qs| - 1]);
      TheirsUnseen(side, sim, Play(side, sim, y, qs[..|qs| - 1]), Play(side, sim, x, rs), qs[|qs| - 1]);
    } else if rs != [] {
      var m, n := |rs| - 1, |qs| - 1;
      GamesStayLevel(side, sim, x, y, rs[..m], qs[..n]);
      OneOrOther(side.coalition, Play(side, sim, x, rs[..m]).env.store, rs[m], Play(side, sim, y, qs[..n]).env.store, qs[n]);
      if rs[m].Ours? {
        OursAlike(side, sim, Play(side, sim, x, rs[..m]), Play(side, sim, y, qs[..n]), rs[m], qs[n]);
      } else {
        ReportedAlike(side, sim, Play(side, sim, x, rs[..m]), Play(side, sim, y, qs[..n]), rs[m], qs[n]);
      }
    }
  }

  lemma OneOrOther(c: Coalition, a: StoreState, r: Round, b: StoreState, q: Round)
    requires RoundsAlike(c, a, r, b, q)
    ensures r.Reported? || r.Ours?
  {
  }

  /** The closed loop: take two worlds that agree on what one side owns, where from then on only what is
      hidden from it differs, and the other side plays as it likes in each.  Whatever commander the side
      has, it is shown the same pictures in both, orders the same, has the same requests sent, and owns
      the same ever after. */
  lemma ClosedLoopIsBlind(side: Side, sim: Simulator, x: Env, y: Env, rs: seq<Round>, qs: seq<Round>)
    requires ReferencesResolve(side.scenario) && OrdersOk(x.store.orders) && OrdersOk(y.store.orders)
    requires Named(x.store) && Named(y.store) && AnswersBySide(sim, side.coalition)
    requires Of(x.sent, side.coalition) == Of(y.sent, side.coalition) && StoresAlike(x.store, y.store, side.coalition)
    requires GamesAlike(side, sim, Game(x, []), Game(y, []), rs, qs)
    ensures var x', y' := Play(side, sim, Game(x, []), rs), Play(side, sim, Game(y, []), qs);
      && x'.shown == y'.shown
      && Of(x'.env.sent, side.coalition) == Of(y'.env.sent, side.coalition)
      && StoresAlike(x'.env.store, y'.env.store, side.coalition)
  {
    hide Of, StoresAlike, Play, GamesAlike, OrdersOk, Named, AnswersBySide, ReferencesResolve;
    GamesStayLevel(side, sim, Game(x, []), Game(y, []), rs, qs);
  }
}
