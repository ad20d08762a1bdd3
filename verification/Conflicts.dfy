/** The first-come-first-served pass over one batch. */
module Conflicts {
  import opened Domain
  import opened Working

  // ---------------------------------------------------------- the reference definition

  /** Two actions that cannot both stay in one batch. */
  predicate Clash(a: Params, b: Params) {
    match (a, b)
    case (Deploy(r, _, _), Deploy(r', _, _)) => r == r'
    case (Prioritize(s, p), Prioritize(s', p')) => s == s' && p != p'
    case (ChangePosture(g, _), Reposition(g', _, _)) => g == g'
    case (ChangePosture(g, _), Withdraw(g', _, _)) => g == g'
    case (Reposition(g, _, _), ChangePosture(g', _)) => g == g'
    case (Withdraw(g, _, _), ChangePosture(g', _)) => g == g'
    case _ => Overlap(MovementGroups(a), MovementGroups(b))
  }

  predicate Overlap(a: seq<string>, b: seq<string>) {
    exists g <- a :: g in b
  }

  lemma ClashIsSymmetric(a: Params, b: Params)
    ensures Clash(a, b) <==> Clash(b, a)
  {
  }

  /** Takes part in the pass: parsed and not rejected so far. */
  predicate Candidate(v: Verdict) {
    v.status != Rejected && v.params.Some?
  }

  /** Greedy selection: an action stays iff it is a candidate and clashes with no earlier
      action that stays. */
  function Kept(vs: seq<Verdict>): (r: seq<bool>)
    ensures |r| == |vs| && forall i :: 0 <= i < |r| && r[i] ==> Candidate(vs[i])
  {
    if vs == [] then []
    else
      var n := |vs| - 1;
      var front := Kept(vs[..n]);
      front + [Candidate(vs[n]) && forall j :: 0 <= j < n && front[j] ==> !Clash(vs[j].params.value, vs[n].params.value)]
  }

  function Resolved(v: Verdict, kept: bool): Verdict {
    if Candidate(v) && !kept then v.(status := Rejected, code := Some(ActionConflict)) else v
  }

  function Resolve(vs: seq<Verdict>): (r: seq<Verdict>)
    ensures |r| == |vs| && forall i :: 0 <= i < |r| ==> r[i] == Resolved(vs[i], Kept(vs)[i])
  {
    seq(|vs|, i requires 0 <= i < |vs| => Resolved(vs[i], Kept(vs)[i]))
  }

  lemma {:induction false} KeptPrefix(vs: seq<Verdict>, n: nat)
    requires n <= |vs|
    ensures Kept(vs[..n]) == Kept(vs)[..n]
    decreases |vs|
  {
    if n < |vs| {
      var front := vs[..|vs| - 1];
      KeptPrefix(front, n);
      assert front[..n] == vs[..n];
    } else {
      assert vs[..n] == vs;
    }
  }

  lemma KeptAt(vs: seq<Verdict>, i: nat)
    requires i < |vs|
    ensures Kept(vs)[i] <==>
      && Candidate(vs[i])
      && forall j :: 0 <= j < i && Kept(vs)[j] ==> !Clash(vs[j].params.value, vs[i].params.value)
  {
    KeptPrefix(vs, i + 1);
    KeptPrefix(vs, i);
    var prefix := vs[..i + 1];
    assert prefix[..i] == vs[..i];
    assert Kept(vs)[i] == Kept(vs)[..i + 1][i];
    forall j | 0 <= j < i ensures Kept(vs)[j] == Kept(vs[..i])[j] {
      assert Kept(vs)[j] == Kept(vs)[..i][j];
    }
  }

  predicate ConflictFree(vs: seq<Verdict>) {
    forall i, j :: 0 <= i < j < |vs| && Candidate(vs[i]) && Candidate(vs[j]) ==>
      !Clash(vs[i].params.value, vs[j].params.value)
  }

  /** The pass in one statement: survivors never clash, everything it rejects clashes with an
      earlier survivor, nothing else changes, and a second pass finds nothing to reject. */
  lemma SelectionIsGreedy(vs: seq<Verdict>)
    ensures ConflictFree(Resolve(vs))
    ensures forall i :: 0 <= i < |vs| ==>
      (Resolve(vs)[i] != vs[i] <==>
        Candidate(vs[i]) && exists j :: 0 <= j < i && Candidate(Resolve(vs)[j]) && Clash(vs[j].params.value, vs[i].params.value))
    ensures forall i :: 0 <= i < |vs| && Resolve(vs)[i] != vs[i] ==>
      Resolve(vs)[i] == vs[i].(status := Rejected, code := Some(ActionConflict))
    ensures Resolve(Resolve(vs)) == Resolve(vs)
  {
    var rs := Resolve(vs);
    forall i | 0 <= i < |vs|
      ensures Candidate(rs[i]) <==> Kept(vs)[i]
      ensures rs[i].params == vs[i].params
    {
      KeptAt(vs, i);
    }
    forall i | 0 <= i < |vs|
      ensures Kept(vs)[i] <==>
        && Candidate(vs[i])
        && forall j :: 0 <= j < i && Candidate(rs[j]) ==> !Clash(vs[j].params.value, vs[i].params.value)
    {
      KeptAt(vs, i);
    }
    forall i | 0 <= i < |rs| ensures Resolve(rs)[i] == rs[i] {
      KeptAt(rs, i);
    }
  }

  // ------------------------------------------------------------- the claim ledgers

  datatype Ledgers = Ledgers(
    reserves: set<string>, priorities: map<string, SectorPriority>,
    movements: map<string, ActionType>, postures: set<string>)

  const NO_CLAIMS := Ledgers({}, map[], map[], {})

  predicate Blocked(l: Ledgers, p: Params) {
    match p
    case Deploy(r, _, _) => r in l.reserves
    case Prioritize(s, level) => s in l.priorities && l.priorities[s] != level
    case Reposition(g, _, _) => g in l.postures || g in l.movements
    case Withdraw(g, _, _) => g in l.postures || g in l.movements
    case Reinforce(_, gs, _) => exists g <- gs :: g in l.movements
    case ChangePosture(g, _) => g in l.movements && l.movements[g] in {RepositionGroup, WithdrawGroup}
    case Hold(_, _, _) => false
  }

  function Claim(l: Ledgers, p: Params): Ledgers {
    match p
    case Deploy(r, _, _) => l.(reserves := l.reserves + {r})
    case Prioritize(s, level) => l.(priorities := l.priorities[s := level])
    case Reposition(g, _, _) => l.(movements := l.movements[g := RepositionGroup])
    case Withdraw(g, _, _) => l.(movements := l.movements[g := WithdrawGroup])
    case Reinforce(_, gs, _) => l.(movements := l.movements + (map g | g in gs :: ReinforceControlPoint))
    case ChangePosture(g, _) => l.(postures := l.postures + {g})
    case Hold(_, _, _) => l
  }

  /** Recording an unblocked action blocks exactly what clashes with it, and unblocks nothing. */
  lemma ClaimBlocksClashes(l: Ledgers, a: Params, b: Params)
    requires !Blocked(l, a)
    ensures Blocked(Claim(l, a), b) <==> Blocked(l, b) || Clash(a, b)
  {
    assert forall g: string :: [g][0] == g && g in [g];
    match (a, b)
    case (Reinforce(_, gs, _), Reinforce(_, gs', _)) =>
      assert forall g :: g in Claim(l, a).movements <==> g in l.movements || g in gs;
    case (Reposition(g, _, _), Reinforce(_, gs, _)) =>
      assert Clash(a, b) <==> g in gs;
    case (Withdraw(g, _, _), Reinforce(_, gs, _)) =>
      assert Clash(a, b) <==> g in gs;
    case _ =>
  }

  /** Some surviving action before position n clashes with p. */
  ghost predicate SurvivorClash(vs: seq<Verdict>, n: nat, p: Params)
    requires n <= |vs|
  {
    exists j :: 0 <= j < n && Kept(vs)[j] && Clash(vs[j].params.value, p)
  }

  ghost predicate LedgersMatch(l: Ledgers, vs: seq<Verdict>, n: nat)
    requires n <= |vs|
  {
    forall p :: Blocked(l, p) <==> SurvivorClash(vs, n, p)
  }

  lemma LedgersMatchNext(l: Ledgers, vs: seq<Verdict>, n: nat)
    requires n < |vs| && LedgersMatch(l, vs, n)
    ensures Kept(vs)[n] <==> Candidate(vs[n]) && !Blocked(l, vs[n].params.value)
    ensures LedgersMatch(if Kept(vs)[n] then Claim(l, vs[n].params.value) else l, vs, n + 1)
  {
    KeptAt(vs, n);
    if Candidate(vs[n]) {
      assert Blocked(l, vs[n].params.value) <==> SurvivorClash(vs, n, vs[n].params.value);
    }
    forall p
      ensures SurvivorClash(vs, n + 1, p) <==>
                SurvivorClash(vs, n, p) || (Kept(vs)[n] && Clash(vs[n].params.value, p))
    {
    }
    if Kept(vs)[n] {
      forall p {
        ClaimBlocksClashes(l, vs[n].params.value, p);
      }
    }
  }

  function Views(working: seq<WorkingResult>): (r: seq<Verdict>)
    reads working
    ensures |r| == |working| && forall i :: 0 <= i < |r| ==> r[i] == working[i].View()
  {
    seq(|working|, i requires 0 <= i < |working| reads working => working[i].View())
  }

  method ApplyConflicts(working: seq<WorkingResult>)
    requires Distinct(working)
    modifies working
    ensures Views(working) == Resolve(old(Views(working)))
  {
    ghost var before := Views(working);
    var claims := NO_CLAIMS;
    for i := 0 to |working|
      invariant LedgersMatch(claims, before, i)
      invariant forall j :: 0 <= j < i ==> working[j].View() == Resolved(before[j], Kept(before)[j])
      invariant forall j :: i <= j < |working| ==> working[j].View() == before[j]
    {
      LedgersMatchNext(claims, before, i);
      assert working[i].View() == before[i];
      if working[i].params.Some? && working[i].status != Rejected {
        claims := ClaimOrReject(working[i], claims);
      }
      assert working[i].View() == Resolved(before[i], Kept(before)[i]);
      assert forall j :: 0 <= j < |working| && j != i ==> working[j] != working[i];
    }
  }

  /** One turn of the pass: reject the action if a ledger speaks against it, else enter it. */
  method ClaimOrReject(result: WorkingResult, claims: Ledgers) returns (claims': Ledgers)
    requires Candidate(result.View())
    modifies result
    ensures var p := old(result.params.value);
      if Blocked(claims, p) then
        claims' == claims && result.View() == old(result.View()).(status := Rejected, code := Some(ActionConflict))
      else
        claims' == Claim(claims, p) && result.View() == old(result.View())
  {
    claims' := claims;
    match result.params.value
    case Deploy(reserveId, _, _) =>
      if reserveId in claims.reserves {
        result.Reject(ActionConflict);
      } else {
        claims' := claims.(reserves := claims.reserves + {reserveId});
      }
    case Prioritize(sectorId, priority) =>
      if sectorId in claims.priorities && claims.priorities[sectorId] != priority {
        result.Reject(ActionConflict);
      } else {
        claims' := claims.(priorities := claims.priorities[sectorId := priority]);
      }
    case Reposition(groupId, _, _) =>
      if groupId in claims.postures || groupId in claims.movements {
        result.Reject(ActionConflict);
      } else {
        claims' := claims.(movements := claims.movements[groupId := RepositionGroup]);
      }
    case Withdraw(groupId, _, _) =>
      if groupId in claims.postures || groupId in claims.movements {
        result.Reject(ActionConflict);
      } else {
        claims' := claims.(movements := claims.movements[groupId := WithdrawGroup]);
      }
    case Reinforce(_, groupIds, _) =>
      var claimed := AnyClaimed(groupIds, claims.movements);
      if claimed {
        result.Reject(ActionConflict);
      } else {
        var movements := ClaimAll(groupIds, claims.movements);
        claims' := claims.(movements := movements);
      }
    case ChangePosture(groupId, _) =>
      if groupId in claims.movements && claims.movements[groupId] in {RepositionGroup, WithdrawGroup} {
        result.Reject(ActionConflict);
      } else {
        claims' := claims.(postures := claims.postures + {groupId});
      }
    case Hold(_, _, _) =>
  }

  method AnyClaimed(ids: seq<string>, claims: map<string, ActionType>) returns (found: bool)
    ensures found <==> exists g <- ids :: g in claims
  {
    found := false;
    for k := 0 to |ids|
      invariant forall j :: 0 <= j < k ==> ids[j] !in claims
    {
      if ids[k] in claims {
        return true;
      }
    }
  }

  method ClaimAll(ids: seq<string>, claims: map<string, ActionType>) returns (r: map<string, ActionType>)
    ensures r == claims + (map g | g in ids :: ReinforceControlPoint)
  {
    r := claims;
    for k := 0 to |ids|
      invariant r == claims + (map g | g in ids[..k] :: ReinforceControlPoint)
    {
      r := r[ids[k] := ReinforceControlPoint];
      assert ids[..k + 1] == ids[..k] + [ids[k]];
    }
    assert ids[..|ids|] == ids;
  }
}
