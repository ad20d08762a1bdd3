/** Identity of execution standing orders: ids are injective, so a reachable store holds at
    most one active order per coalition, action type and entity. */
module Orders {
  import opened Domain
  import opened StateStore
  import opened Planning

  /** Action type names are prefix-free, so the entity can be read back after the name. */
  lemma ActionNamesArePrefixFree(a: ActionType, b: ActionType, x: string, y: string)
    requires ActionTypeName(a) + "_" + x == ActionTypeName(b) + "_" + y
    ensures a == b && x == y
  {
    var s, t := ActionTypeName(a), ActionTypeName(b);
    assert s[0] == (s + "_" + x)[0] == t[0];
    assert s[2] == (s + "_" + x)[2] == t[2];
    assert s[4] == (s + "_" + x)[4] == t[4];
    assert a == b;
    assert (s + "_" + x)[|s| + 1..] == x && (t + "_" + y)[|t| + 1..] == y;
  }

  lemma OrderIdRest(c: Coalition, a: ActionType, e: Option<string>)
    ensures var id := OrderId(c, a, e);
      && |id| > 9
      && id[5] == (if c == Red then 'r' else 'b')
      && id[6 + |CoalitionName(c)|..] == ActionTypeName(a) + "_" + OrderSuffix(e)
  {
    var id := OrderId(c, a, e);
    var head := "exec_" + CoalitionName(c) + "_";
    assert id == head + (ActionTypeName(a) + "_" + OrderSuffix(e));
    assert id[5] == head[5] == CoalitionName(c)[0];
  }

  /** The order id determines coalition, action type and (suffix of the) entity. */
  lemma OrderIdInjective(c: Coalition, a: ActionType, e: Option<string>, c': Coalition, a': ActionType, e': Option<string>)
    ensures OrderId(c, a, e) == OrderId(c', a', e') <==> c == c' && a == a' && OrderSuffix(e) == OrderSuffix(e')
  {
    if OrderId(c, a, e) == OrderId(c', a', e') {
      OrderIdRest(c, a, e);
      OrderIdRest(c', a', e');
      ActionNamesArePrefixFree(a, a', OrderSuffix(e), OrderSuffix(e'));
    }
  }

  /** An order as the engine writes it. */
  predicate OrderOk(o: StandingOrder) {
    && Truthy(o.entityId)
    && o.id == OrderId(o.coalition, o.actionType, o.entityId)
    && o.entityType == EntityType(o.actionType)
    && o.fingerprint.actionType == o.actionType && o.fingerprint.entityId == o.entityId
    && TypeOf(o.fingerprint.params) == o.actionType
    && o.active
  }

  ghost predicate OrdersOk(rows: map<string, StandingOrder>) {
    forall id <- rows :: rows[id].id == id && OrderOk(rows[id])
  }

  lemma OrderForIsOk(c: Coalition, p: Params, entityId: string, member: Option<string>, now: int)
    requires entityId != ""
    ensures var o := OrderFor(c, p, entityId, member, now);
      OrderOk(o) && o.coalition == c && o.fingerprint.params == p
  {
  }

  /** On well-kept tables the upsert supersedes nothing and simply writes the row. */
  lemma UpsertWritesOneRow(rows: map<string, StandingOrder>, o: StandingOrder)
    requires OrdersOk(rows) && OrderOk(o)
    ensures UpsertOrder(rows, o) == rows[o.id := o]
    ensures OrdersOk(UpsertOrder(rows, o))
  {
    forall id | id in rows
      ensures SameSubject(rows[id], o) ==> id == o.id
      ensures id == o.id ==> SameIdentity(rows[id], o)
    {
      var r := rows[id];
      OrderIdInjective(r.coalition, r.actionType, r.entityId, o.coalition, o.actionType, o.entityId);
    }
  }

  predicate SameIdentity(a: StandingOrder, b: StandingOrder) {
    a.coalition == b.coalition && a.actionType == b.actionType && a.entityType == b.entityType && a.entityId == b.entityId
  }

  lemma {:induction false} UpsertsWriteRows(rows: map<string, StandingOrder>, os: seq<StandingOrder>)
    requires OrdersOk(rows) && forall o <- os :: OrderOk(o)
    ensures OrdersOk(UpsertOrders(rows, os))
    ensures os != [] ==> UpsertOrders(rows, os) == UpsertOrders(rows, os[..|os| - 1])[os[|os| - 1].id := os[|os| - 1]]
  {
    if os != [] {
      UpsertsWriteRows(rows, os[..|os| - 1]);
      UpsertWritesOneRow(UpsertOrders(rows, os[..|os| - 1]), os[|os| - 1]);
    }
  }

  /** At most one active order per (coalition, action type, entity). */
  lemma OneOrderPerSubject(rows: map<string, StandingOrder>, i: string, j: string)
    requires OrdersOk(rows) && i in rows && j in rows
    requires SameSubject(rows[i], rows[j])
    ensures i == j
  {
    OrderIdInjective(rows[i].coalition, rows[i].actionType, rows[i].entityId,
                     rows[j].coalition, rows[j].actionType, rows[j].entityId);
  }

  /** Whether a fingerprint is active can be read off the one row that may carry it. */
  lemma FingerprintIsAtItsId(rows: map<string, StandingOrder>, c: Coalition, f: Fingerprint)
    requires OrdersOk(rows) && Truthy(f.entityId)
    ensures f in ActiveFingerprints(rows, c) <==>
              var id := OrderId(c, f.actionType, f.entityId);
              id in rows && rows[id].fingerprint == f
  {
    var id := OrderId(c, f.actionType, f.entityId);
    if id in rows {
      OrderIdInjective(rows[id].coalition, rows[id].actionType, rows[id].entityId, c, f.actionType, f.entityId);
    }
  }
}
