/** Loaded scenarios are consistent, and survive the way through their dictionary form and
    through a file. */
module ScenarioRoundTrip {
  import opened Domain
  import opened Requests
  import opened Toml
  import opened TomlRoundTrip
  import opened ScenarioCodec

  // ------------------------------------------------------- what loading guarantees

  predicate AllFilled(items: seq<string>) {
    forall s <- items :: !IsBlank(s)
  }

  predicate Filled(s: Option<string>) {
    s.Some? ==> !IsBlank(s.value)
  }

  predicate GoodSector(s: Sector) {
    !IsBlank(s.id) && !IsBlank(s.name) && !IsBlank(s.role) && AllFilled(s.neighborIds) && AllFilled(s.tags)
  }

  predicate GoodPoint(p: ControlPoint) {
    !IsBlank(p.id) && !IsBlank(p.name) && !IsBlank(p.sectorId) && !IsBlank(p.kind) && !IsBlank(p.strategicValue)
  }

  predicate GoodOrder(o: AuthoredOrder, c: Coalition) {
    o.coalition == c && !IsBlank(o.id) && !IsBlank(o.text)
  }

  predicate GoodCoalition(c: CoalitionState) {
    AllFilled(c.objectives) && AllFilled(c.reserveIds) && forall o <- c.standingOrders :: GoodOrder(o, c.coalition)
  }

  predicate GoodGroup(g: ActiveGroup) {
    !IsBlank(g.id) && !IsBlank(g.groupType) && !IsBlank(g.status) && Filled(g.sectorId) && Filled(g.controlPointId)
  }

  predicate GoodReserve(r: ReserveGroup) {
    !IsBlank(r.id) && !IsBlank(r.groupType) && !IsBlank(r.status) && AllFilled(r.allowedSectorIds)
  }

  predicate GoodZone(z: Zone) {
    !IsBlank(z.id) && !IsBlank(z.name) && !IsBlank(z.sectorId) && z.radiusNm > 0.0 && AllFilled(z.tags)
  }

  predicate GoodRestriction(r: Restriction) {
    && !IsBlank(r.id) && !IsBlank(r.restrictionType) && !IsBlank(r.description)
    && AllFilled(r.sectorIds) && AllFilled(r.controlPointIds)
  }

  predicate GoodRecords(sc: Scenario) {
    && sc.sectors != [] && sc.controlPoints != [] && sc.coalitions != []
    && !IsBlank(sc.id) && !IsBlank(sc.version) && !IsBlank(sc.name) && !IsBlank(sc.theater) && !IsBlank(sc.summary)
    && (forall s <- sc.sectors :: GoodSector(s)) && (forall p <- sc.controlPoints :: GoodPoint(p))
    && (forall c <- sc.coalitions :: GoodCoalition(c)) && (forall g <- sc.activeGroups :: GoodGroup(g))
    && (forall r <- sc.reserveGroups :: GoodReserve(r)) && (forall z <- sc.zones :: GoodZone(z))
    && (forall r <- sc.restrictions :: GoodRestriction(r))
  }

  lemma {:induction false} ParsedAreGood<T(!new)>(items: seq<Value>, parse: seq<Field> -> Loaded<T>, good: T -> bool)
    requires ParseAll(items, parse).Ok?
    requires forall fs :: parse(fs).Ok? ==> good(parse(fs).value)
    ensures forall x <- ParseAll(items, parse).value :: good(x)
    ensures |ParseAll(items, parse).value| == |items|
  {
    if items != [] {
      ParsedAreGood(items[1..], parse, good);
    }
  }

  lemma {:induction false} OrdersAreGood(c: Coalition, items: seq<Value>)
    requires ParseOrders(c, items).Ok?
    ensures forall o <- ParseOrders(c, items).value :: GoodOrder(o, c)
  {
    if items != [] {
      OrdersAreGood(c, items[1..]);
    }
  }

  lemma CoalitionIsGood(casts: Casts, fs: seq<Field>)
    requires ParseCoalition(casts, fs).Ok?
    ensures GoodCoalition(ParseCoalition(casts, fs).value)
  {
    var c := CoalitionOf(NeedText(fs, "coalition").value).value;
    OrdersAreGood(c, GetOr(fs, "standing_orders", VList([])).items);
  }

  /** A loaded scenario has only filled texts and no dangling reference. */
  lemma LoadedIsGood(casts: Casts, raw: seq<Field>)
    requires Load(casts, raw).Ok?
    ensures GoodRecords(Load(casts, raw).value) && Consistent(Load(casts, raw).value)
    ensures ReferencesResolve(Load(casts, raw).value)
  {
    hide ParseSector, ParseControlPoint, ParseCoalition, ParseActiveGroup, ParseReserveGroup, ParseZone, ParseRestriction;
    var none := VList([]);
    SectorsGood(casts, Required(GetOr(raw, "sectors", none)).value);
    PointsGood(casts, Required(GetOr(raw, "control_points", none)).value);
    CoalitionsGood(casts, Required(GetOr(raw, "coalitions", none)).value);
    GroupsGood(casts, Entries(GetOr(raw, "active_groups", none)).value);
    ReservesGood(casts, Entries(GetOr(raw, "reserve_groups", none)).value);
    ZonesGood(casts, Entries(GetOr(raw, "zones", none)).value);
    RestrictionsGood(casts, Entries(GetOr(raw, "deployment_restrictions", none)).value);
  }

  lemma SectorsGood(casts: Casts, items: seq<Value>)
    requires ParseAll(items, fs => ParseSector(casts, fs)).Ok?
    ensures var r := ParseAll(items, fs => ParseSector(casts, fs)).value;
      |r| == |items| && forall x <- r :: GoodSector(x)
  {
    ParsedAreGood(items, fs => ParseSector(casts, fs), GoodSector);
  }

  lemma PointsGood(casts: Casts, items: seq<Value>)
    requires ParseAll(items, fs => ParseControlPoint(casts, fs)).Ok?
    ensures var r := ParseAll(items, fs => ParseControlPoint(casts, fs)).value;
      |r| == |items| && forall x <- r :: GoodPoint(x)
  {
    ParsedAreGood(items, fs => ParseControlPoint(casts, fs), GoodPoint);
  }

  lemma CoalitionsGood(casts: Casts, items: seq<Value>)
    requires ParseAll(items, fs => ParseCoalition(casts, fs)).Ok?
    ensures var r := ParseAll(items, fs => ParseCoalition(casts, fs)).value;
      |r| == |items| && forall x <- r :: GoodCoalition(x)
  {
    hide ParseCoalition, GoodCoalition;
    forall fs | ParseCoalition(casts, fs).Ok? {
      CoalitionIsGood(casts, fs);
    }
    ParsedAreGood(items, fs => ParseCoalition(casts, fs), GoodCoalition);
  }

  lemma GroupsGood(casts: Casts, items: seq<Value>)
    requires ParseAll(items, fs => ParseActiveGroup(casts, fs)).Ok?
    ensures forall x <- ParseAll(items, fs => ParseActiveGroup(casts, fs)).value :: GoodGroup(x)
  {
    ParsedAreGood(items, fs => ParseActiveGroup(casts, fs), GoodGroup);
  }

  lemma ReservesGood(casts: Casts, items: seq<Value>)
    requires ParseAll(items, fs => ParseReserveGroup(casts, fs)).Ok?
    ensures forall x <- ParseAll(items, fs => ParseReserveGroup(casts, fs)).value :: GoodReserve(x)
  {
    ParsedAreGood(items, fs => ParseReserveGroup(casts, fs), GoodReserve);
  }

  lemma ZonesGood(casts: Casts, items: seq<Value>)
    requires ParseAll(items, fs => ParseZone(casts, fs)).Ok?
    ensures forall x <- ParseAll(items, fs => ParseZone(casts, fs)).value :: GoodZone(x)
  {
    ParsedAreGood(items, fs => ParseZone(casts, fs), GoodZone);
  }

  lemma RestrictionsGood(casts: Casts, items: seq<Value>)
    requires ParseAll(items, fs => ParseRestriction(casts, fs)).Ok?
    ensures forall x <- ParseAll(items, fs => ParseRestriction(casts, fs)).value :: GoodRestriction(x)
  {
    ParsedAreGood(items, fs => ParseRestriction(casts, fs), GoodRestriction);
  }

  // --------------------------------------------------------- one record comes back

  /** fs says what `fields` says; null entries may be missing. */
  ghost predicate Carries(fs: seq<Field>, fields: seq<Field>) {
    forall i :: 0 <= i < |fields| ==> Tells(fs, fields[i])
  }

  ghost predicate Tells(fs: seq<Field>, f: Field) {
    if f.value == VNull then GetOr(fs, f.key, VNull) == VNull else Find(fs, f.key) == Some(f.value)
  }

  /** The value has no null entries to lose. */
  ghost predicate Whole(v: Value) {
    Stripped(v) == v
  }

  lemma {:induction false} FindMissing(fields: seq<Field>, key: string)
    ensures Find(fields, key).None? <==> !HasKey(fields, key)
  {
    if fields != [] {
      assert fields == [fields[0]] + fields[1..];
      FindMissing(fields[1..], key);
    }
  }

  lemma {:induction false} FindOwn(fields: seq<Field>, i: nat)
    requires DistinctKeys(fields) && i < |fields|
    ensures Find(fields, fields[i].key) == Some(fields[i].value)
  {
    if i > 0 {
      FindOwn(fields[1..], i - 1);
    }
  }

  lemma CarriesItself(fields: seq<Field>)
    requires DistinctKeys(fields)
    ensures Carries(fields, fields)
  {
    forall i | 0 <= i < |fields| ensures Tells(fields, fields[i]) {
      FindOwn(fields, i);
    }
  }

  lemma {:induction false} FindStripped(fields: seq<Field>, i: nat)
    requires DistinctKeys(fields) && i < |fields|
    ensures Find(StrippedFields(fields), fields[i].key) ==
            if fields[i].value == VNull then None else Some(Stripped(fields[i].value))
  {
    var more := fields[1..];
    assert fields == [fields[0]] + more;
    hide Stripped;
    if i > 0 {
      FindStripped(more, i - 1);
      assert more[i - 1] == fields[i] && fields[0].key != fields[i].key;
      var head := if fields[0].value == VNull then [] else [Field(fields[0].key, Stripped(fields[0].value))];
      assert StrippedFields(fields) == head + StrippedFields(more);
      assert head != [] ==> (head + StrippedFields(more))[1..] == StrippedFields(more);
      assert head == [] ==> head + StrippedFields(more) == StrippedFields(more);
    } else if fields[0].value == VNull {
      assert StrippedFields(fields) == StrippedFields(more);
      forall f | f in more ensures f.key != fields[0].key {
        var j :| 0 <= j < |more| && more[j] == f;
        assert fields[j + 1] == f;
      }
      StrippedKeys(more, fields[0].key);
      FindMissing(StrippedFields(more), fields[0].key);
    }
  }

  lemma CarriesStripped(fields: seq<Field>)
    requires DistinctKeys(fields) && forall i :: 0 <= i < |fields| ==> Whole(fields[i].value)
    ensures Carries(StrippedFields(fields), fields)
  {
    forall i | 0 <= i < |fields| ensures Tells(StrippedFields(fields), fields[i]) {
      FindStripped(fields, i);
    }
  }

  lemma TextsRead(fs: seq<Field>, key: string, items: seq<string>)
    requires Find(fs, key) == Some(TextList(items)) && AllFilled(items)
    ensures OptionalTexts(fs, key) == Ok(items)
  {
    var v := TextList(items);
    forall item | item in v.items ensures NonBlank(item) {
      var i :| 0 <= i < |items| && v.items[i] == item;
      assert items[i] in items;
    }
    assert TextsOf(v.items) == items;
  }

  lemma CoalitionNamesRead(c: Coalition)
    ensures CoalitionOf(CoalitionName(c)) == Ok(c) && !IsBlank(CoalitionName(c))
  {
    assert CoalitionName(c)[1] in CoalitionName(c);
    assert "red"[0] == 'r' && "blue"[0] == 'b';
  }

  lemma PostureNamesRead(p: Posture)
    ensures PostureOf(PostureName(p)) == Ok(p) && !IsBlank(PostureName(p))
  {
    assert PostureName(p)[0] in PostureName(p);
  }

  lemma SectorReads(casts: Casts, fs: seq<Field>, s: Sector)
    requires GoodSector(s) && Carries(fs, SectorFields(s))
    ensures ParseSector(casts, fs) == Ok(s)
  {
    var all := SectorFields(s);
    assert Tells(fs, all[0]) && Tells(fs, all[1]) && Tells(fs, all[2]) && Tells(fs, all[3]) && Tells(fs, all[4]);
    assert Tells(fs, all[5]) && Tells(fs, all[6]) && Tells(fs, all[7]);
    TextsRead(fs, "neighbor_ids", s.neighborIds);
    TextsRead(fs, "tags", s.tags);
    hide IsBlank, Find, OptionalTexts, TextList, Carries;
  }

  lemma PointReads(casts: Casts, fs: seq<Field>, p: ControlPoint)
    requires GoodPoint(p) && Carries(fs, PointFields(p))
    ensures ParseControlPoint(casts, fs) == Ok(p)
  {
    var all := PointFields(p);
    assert Tells(fs, all[0]) && Tells(fs, all[1]) && Tells(fs, all[2]) && Tells(fs, all[3]) && Tells(fs, all[4]);
    assert Tells(fs, all[5]) && Tells(fs, all[6]) && Tells(fs, all[7]);
    CoalitionNamesRead(Red);
    CoalitionNamesRead(Blue);
    hide IsBlank, Find, Carries, CoalitionName, CoalitionOf;
  }

  lemma OrderReads(c: Coalition, o: AuthoredOrder)
    requires GoodOrder(o, c)
    ensures ParseOrder(c, VDict(OrderFields(o))) == Ok(o)
  {
    var all := OrderFields(o);
    assert DistinctKeys(all);
    FindOwn(all, 0);
    FindOwn(all, 1);
    FindOwn(all, 2);
    hide IsBlank, Find;
  }

  lemma {:induction false} OrdersRead(c: Coalition, os: seq<AuthoredOrder>, items: seq<Value>)
    requires (forall o <- os :: GoodOrder(o, c)) && items == OrderItems(os)
    ensures ParseOrders(c, items) == Ok(os)
  {
    hide ParseOrder, OrderFields;
    if os != [] {
      assert os == [os[0]] + os[1..];
      OrderReads(c, os[0]);
      OrdersRead(c, os[1..], items[1..]);
    }
  }

  lemma CoalitionReads(casts: Casts, fs: seq<Field>, c: CoalitionState)
    requires GoodCoalition(c) && Carries(fs, CoalitionFields(c))
    ensures ParseCoalition(casts, fs) == Ok(c)
  {
    var all := CoalitionFields(c);
    assert Tells(fs, all[0]) && Tells(fs, all[1]) && Tells(fs, all[2]) && Tells(fs, all[3]) && Tells(fs, all[4]);
    assert Tells(fs, all[5]) && Tells(fs, all[6]);
    TextsRead(fs, "objectives", c.objectives);
    TextsRead(fs, "reserve_ids", c.reserveIds);
    OrdersRead(c.coalition, c.standingOrders, OrderItems(c.standingOrders));
    CoalitionNamesRead(c.coalition);
    hide IsBlank, Find, OptionalTexts, TextList, Carries, CoalitionName, CoalitionOf, ParseOrders, OrderItems;
  }

  lemma GroupReads(casts: Casts, fs: seq<Field>, g: ActiveGroup)
    requires GoodGroup(g) && Carries(fs, GroupFields(g))
    ensures ParseActiveGroup(casts, fs) == Ok(g)
  {
    var all := GroupFields(g);
    assert Tells(fs, all[0]) && Tells(fs, all[1]) && Tells(fs, all[2]) && Tells(fs, all[3]) && Tells(fs, all[4]);
    assert Tells(fs, all[5]) && Tells(fs, all[6]) && Tells(fs, all[7]) && Tells(fs, all[8]) && Tells(fs, all[9]);
    CoalitionNamesRead(g.coalition);
    PostureNamesRead(g.posture);
    hide IsBlank, Find, Carries, CoalitionName, CoalitionOf, PostureName, PostureOf;
  }

  lemma ReserveReads(casts: Casts, fs: seq<Field>, r: ReserveGroup)
    requires GoodReserve(r) && Carries(fs, ReserveFields(r))
    ensures ParseReserveGroup(casts, fs) == Ok(r)
  {
    var all := ReserveFields(r);
    assert Tells(fs, all[0]) && Tells(fs, all[1]) && Tells(fs, all[2]) && Tells(fs, all[3]) && Tells(fs, all[4]);
    assert Tells(fs, all[5]) && Tells(fs, all[6]) && Tells(fs, all[7]) && Tells(fs, all[8]) && Tells(fs, all[9]);
    TextsRead(fs, "allowed_sector_ids", r.allowedSectorIds);
    CoalitionNamesRead(r.coalition);
    hide IsBlank, Find, OptionalTexts, TextList, Carries, CoalitionName, CoalitionOf;
  }

  lemma ZoneReads(casts: Casts, fs: seq<Field>, z: Zone)
    requires GoodZone(z) && Carries(fs, ZoneFields(z))
    ensures ParseZone(casts, fs) == Ok(z)
  {
    var all := ZoneFields(z);
    assert Tells(fs, all[0]) && Tells(fs, all[1]) && Tells(fs, all[2]) && Tells(fs, all[3]) && Tells(fs, all[4]);
    assert Tells(fs, all[5]) && Tells(fs, all[6]);
    TextsRead(fs, "tags", z.tags);
    hide IsBlank, Find, OptionalTexts, TextList, Carries;
  }

  lemma RestrictionReads(casts: Casts, fs: seq<Field>, r: Restriction)
    requires GoodRestriction(r) && Carries(fs, RestrictionFields(r))
    ensures ParseRestriction(casts, fs) == Ok(r)
  {
    var all := RestrictionFields(r);
    assert Tells(fs, all[0]) && Tells(fs, all[1]) && Tells(fs, all[2]) && Tells(fs, all[3]) && Tells(fs, all[4]);
    assert Tells(fs, all[5]) && Tells(fs, all[6]);
    TextsRead(fs, "sector_ids", r.sectorIds);
    TextsRead(fs, "control_point_ids", r.controlPointIds);
    CoalitionNamesRead(Red);
    CoalitionNamesRead(Blue);
    hide IsBlank, Find, OptionalTexts, TextList, Carries, CoalitionName, CoalitionOf;
  }

  // ------------------------------------------------------- the whole scenario comes back

  /** The entries of an array are tables that say what the records' tables say. */
  ghost predicate Lists<T>(items: seq<Value>, xs: seq<T>, fields: T -> seq<Field>) {
    && |items| == |xs|
    && forall i :: 0 <= i < |items| ==> items[i].VDict? && Carries(items[i].fields, fields(xs[i]))
  }

  ghost predicate ListedUnder<T>(raw: seq<Field>, key: string, xs: seq<T>, fields: T -> seq<Field>) {
    var v := GetOr(raw, key, VList([]));
    v.VList? && Lists(v.items, xs, fields)
  }

  /** raw says what the dictionary form of the scenario says. */
  ghost predicate Presents(raw: seq<Field>, sc: Scenario) {
    && Carries(raw, HeadFields(sc))
    && ListedUnder(raw, "sectors", sc.sectors, SectorFields)
    && ListedUnder(raw, "control_points", sc.controlPoints, PointFields)
    && ListedUnder(raw, "coalitions", sc.coalitions, CoalitionFields)
    && ListedUnder(raw, "active_groups", sc.activeGroups, GroupFields)
    && ListedUnder(raw, "reserve_groups", sc.reserveGroups, ReserveFields)
    && ListedUnder(raw, "zones", sc.zones, ZoneFields)
    && ListedUnder(raw, "deployment_restrictions", sc.restrictions, RestrictionFields)
  }

  lemma {:induction false} AllRead<T>(items: seq<Value>, xs: seq<T>, parse: seq<Field> -> Loaded<T>)
    requires |items| == |xs|
    requires forall i :: 0 <= i < |items| ==> items[i].VDict? && parse(items[i].fields) == Ok(xs[i])
    ensures ParseAll(items, parse) == Ok(xs)
  {
    if items != [] {
      assert xs == [xs[0]] + xs[1..];
      AllRead(items[1..], xs[1..], parse);
    }
  }

  lemma SectorsRead(casts: Casts, items: seq<Value>, xs: seq<Sector>)
    requires Lists(items, xs, SectorFields) && forall x <- xs :: GoodSector(x)
    ensures ParseAll(items, fs => ParseSector(casts, fs)) == Ok(xs)
  {
    hide ParseSector, SectorFields, Carries, GoodSector;
    forall i | 0 <= i < |xs| ensures ParseSector(casts, items[i].fields) == Ok(xs[i]) {
      SectorReads(casts, items[i].fields, xs[i]);
    }
    AllRead(items, xs, fs => ParseSector(casts, fs));
  }

  lemma PointsRead(casts: Casts, items: seq<Value>, xs: seq<ControlPoint>)
    requires Lists(items, xs, PointFields) && forall x <- xs :: GoodPoint(x)
    ensures ParseAll(items, fs => ParseControlPoint(casts, fs)) == Ok(xs)
  {
    hide ParseControlPoint, PointFields, Carries, GoodPoint;
    forall i | 0 <= i < |xs| ensures ParseControlPoint(casts, items[i].fields) == Ok(xs[i]) {
      PointReads(casts, items[i].fields, xs[i]);
    }
    AllRead(items, xs, fs => ParseControlPoint(casts, fs));
  }

  lemma CoalitionsRead(casts: Casts, items: seq<Value>, xs: seq<CoalitionState>)
    requires Lists(items, xs, CoalitionFields) && forall x <- xs :: GoodCoalition(x)
    ensures ParseAll(items, fs => ParseCoalition(casts, fs)) == Ok(xs)
  {
    hide ParseCoalition, CoalitionFields, Carries, GoodCoalition;
    forall i | 0 <= i < |xs| ensures ParseCoalition(casts, items[i].fields) == Ok(xs[i]) {
      CoalitionReads(casts, items[i].fields, xs[i]);
    }
    AllRead(items, xs, fs => ParseCoalition(casts, fs));
  }

  lemma GroupsRead(casts: Casts, items: seq<Value>, xs: seq<ActiveGroup>)
    requires Lists(items, xs, GroupFields) && forall x <- xs :: GoodGroup(x)
    ensures ParseAll(items, fs => ParseActiveGroup(casts, fs)) == Ok(xs)
  {
    hide ParseActiveGroup, GroupFields, Carries, GoodGroup;
    forall i | 0 <= i < |xs| ensures ParseActiveGroup(casts, items[i].fields) == Ok(xs[i]) {
      GroupReads(casts, items[i].fields, xs[i]);
    }
    AllRead(items, xs, fs => ParseActiveGroup(casts, fs));
  }

  lemma ReservesRead(casts: Casts, items: seq<Value>, xs: seq<ReserveGroup>)
    requires Lists(items, xs, ReserveFields) && forall x <- xs :: GoodReserve(x)
    ensures ParseAll(items, fs => ParseReserveGroup(casts, fs)) == Ok(xs)
  {
    hide ParseReserveGroup, ReserveFields, Carries, GoodReserve;
    forall i | 0 <= i < |xs| ensures ParseReserveGroup(casts, items[i].fields) == Ok(xs[i]) {
      ReserveReads(casts, items[i].fields, xs[i]);
    }
    AllRead(items, xs, fs => ParseReserveGroup(casts, fs));
  }

  lemma ZonesRead(casts: Casts, items: seq<Value>, xs: seq<Zone>)
    requires Lists(items, xs, ZoneFields) && forall x <- xs :: GoodZone(x)
    ensures ParseAll(items, fs => ParseZone(casts, fs)) == Ok(xs)
  {
    hide ParseZone, ZoneFields, Carries, GoodZone;
    forall i | 0 <= i < |xs| ensures ParseZone(casts, items[i].fields) == Ok(xs[i]) {
      ZoneReads(casts, items[i].fields, xs[i]);
    }
    AllRead(items, xs, fs => ParseZone(casts, fs));
  }

  lemma RestrictionsRead(casts: Casts, items: seq<Value>, xs: seq<Restriction>)
    requires Lists(items, xs, RestrictionFields) && forall x <- xs :: GoodRestriction(x)
    ensures ParseAll(items, fs => ParseRestriction(casts, fs)) == Ok(xs)
  {
    hide ParseRestriction, RestrictionFields, Carries, GoodRestriction;
    forall i | 0 <= i < |xs| ensures ParseRestriction(casts, items[i].fields) == Ok(xs[i]) {
      RestrictionReads(casts, items[i].fields, xs[i]);
    }
    AllRead(items, xs, fs => ParseRestriction(casts, fs));
  }

  lemma HeadReads(raw: seq<Field>, sc: Scenario)
    requires Carries(raw, HeadFields(sc)) && GoodRecords(sc)
    ensures NeedText(raw, "id") == Ok(sc.id) && NeedText(raw, "version") == Ok(sc.version)
    ensures NeedText(raw, "name") == Ok(sc.name) && NeedText(raw, "theater") == Ok(sc.theater)
    ensures NeedText(raw, "summary") == Ok(sc.summary)
  {
    var all := HeadFields(sc);
    assert Tells(raw, all[0]) && Tells(raw, all[1]) && Tells(raw, all[2]) && Tells(raw, all[3]) && Tells(raw, all[4]);
    hide IsBlank, Find, Carries;
  }

  /** Whatever presents a good scenario loads as that scenario. */
  lemma PresentedLoads(casts: Casts, raw: seq<Field>, sc: Scenario)
    requires GoodRecords(sc) && Consistent(sc) && Presents(raw, sc)
    ensures Load(casts, raw) == Ok(sc)
  {
    HeadReads(raw, sc);
    var none := VList([]);
    SectorsRead(casts, GetOr(raw, "sectors", none).items, sc.sectors);
    PointsRead(casts, GetOr(raw, "control_points", none).items, sc.controlPoints);
    CoalitionsRead(casts, GetOr(raw, "coalitions", none).items, sc.coalitions);
    GroupsRead(casts, GetOr(raw, "active_groups", none).items, sc.activeGroups);
    ReservesRead(casts, GetOr(raw, "reserve_groups", none).items, sc.reserveGroups);
    ZonesRead(casts, GetOr(raw, "zones", none).items, sc.zones);
    RestrictionsRead(casts, GetOr(raw, "deployment_restrictions", none).items, sc.restrictions);
    hide Consistent, ParseAll, NeedText, GetOr, Carries, SectorFields, PointFields, CoalitionFields, GroupFields, ReserveFields,
      ZoneFields, RestrictionFields, HeadFields, GoodSector, GoodPoint, GoodCoalition, GoodGroup, GoodReserve, GoodZone, GoodRestriction;
  }

  // --------------------------------------------------------- through the dictionary

  ghost predicate GoodKeys(fields: seq<Field>) {
    DistinctKeys(fields) && forall i :: 0 <= i < |fields| ==> IsBare(fields[i].key)
  }

  ghost predicate KeysAre(fields: seq<Field>, keys: seq<string>) {
    |fields| == |keys| && forall i :: 0 <= i < |keys| ==> fields[i].key == keys[i]
  }

  ghost predicate BareKeys(keys: seq<string>) {
    forall i :: 0 <= i < |keys| ==> IsBare(keys[i])
  }

  lemma KeysAreGood(fields: seq<Field>, keys: seq<string>)
    requires KeysAre(fields, keys) && Distinct(keys) && BareKeys(keys)
    ensures GoodKeys(fields)
  {
    hide IsBare;
  }

  // The words of the file format, in batches.

  lemma BareWords1()
    ensures IsBare("id") && IsBare("name") && IsBare("role") && IsBare("neighbor_ids")
    ensures IsBare("tags") && IsBare("center_lat") && IsBare("center_lng")
  {
  }

  lemma BareWords2()
    ensures IsBare("radius_nm") && IsBare("sector_id") && IsBare("kind") && IsBare("owner")
    ensures IsBare("strategic_value") && IsBare("lat") && IsBare("lng")
  {
  }

  lemma BareWords3()
    ensures IsBare("text") && IsBare("active") && IsBare("coalition")
  {
  }

  lemma BareCoalitionWords()
    ensures IsBare("budget_remaining") && IsBare("objectives") && IsBare("reserve_ids") && IsBare("standing_orders")
  {
  }

  lemma BarePoolWords()
    ensures IsBare("attrition_pool") && IsBare("replacement_pool") && IsBare("attrition_count")
  {
  }

  lemma BareWords4()
    ensures IsBare("group_type") && IsBare("posture") && IsBare("mobile") && IsBare("status") && IsBare("control_point_id")
  {
  }

  lemma BareWords5()
    ensures IsBare("available") && IsBare("cost") && IsBare("allowed_sector_ids")
    ensures IsBare("emergency") && IsBare("restriction_type") && IsBare("description")
  {
  }

  lemma BareWords6()
    ensures IsBare("sector_ids") && IsBare("control_point_ids") && IsBare("adjacency_limited") && IsBare("version")
    ensures IsBare("theater") && IsBare("summary") && IsBare("sectors")
  {
  }

  lemma BareWords7()
    ensures IsBare("control_points") && IsBare("coalitions") && IsBare("active_groups") && IsBare("reserve_groups")
    ensures IsBare("zones") && IsBare("deployment_restrictions")
  {
  }

  const SECTOR_KEYS := ["id", "name", "role", "neighbor_ids", "tags", "center_lat", "center_lng", "radius_nm"]

  lemma SectorKeys(s: Sector)
    ensures GoodKeys(SectorFields(s))
  {
    BareWords1();
    BareWords2();
    hide IsBare, GoodKeys;
    assert Distinct(SECTOR_KEYS) && BareKeys(SECTOR_KEYS);
    KeysAreGood(SectorFields(s), SECTOR_KEYS);
  }

  const POINT_KEYS := ["id", "name", "sector_id", "kind", "owner", "strategic_value", "lat", "lng"]

  lemma PointKeys(p: ControlPoint)
    ensures GoodKeys(PointFields(p))
  {
    BareWords1();
    BareWords2();
    hide IsBare, GoodKeys;
    assert Distinct(POINT_KEYS) && BareKeys(POINT_KEYS);
    KeysAreGood(PointFields(p), POINT_KEYS);
  }

  const ORDER_KEYS := ["id", "text", "active"]

  lemma OrderKeys(o: AuthoredOrder)
    ensures GoodKeys(OrderFields(o))
  {
    BareWords1();
    BareWords3();
    hide IsBare, GoodKeys;
    assert Distinct(ORDER_KEYS) && BareKeys(ORDER_KEYS);
    KeysAreGood(OrderFields(o), ORDER_KEYS);
  }

  const COALITION_KEYS := ["coalition", "budget_remaining", "objectives", "reserve_ids", "standing_orders", "attrition_pool",
                           "replacement_pool"]

  lemma CoalitionKeys(c: CoalitionState)
    ensures GoodKeys(CoalitionFields(c))
  {
    BareWords3();
    BareCoalitionWords();
    BarePoolWords();
    hide IsBare, GoodKeys;
    assert Distinct(COALITION_KEYS) && BareKeys(COALITION_KEYS);
    KeysAreGood(CoalitionFields(c), COALITION_KEYS);
  }

  const GROUP_KEYS := ["id", "coalition", "group_type", "posture", "sector_id", "mobile", "status", "control_point_id",
                       "attrition_count", "replacement_pool"]

  lemma GroupKeys(g: ActiveGroup)
    ensures GoodKeys(GroupFields(g))
  {
    BareWords1();
    BareWords2();
    BareWords3();
    BareWords4();
    BarePoolWords();
    hide IsBare, GoodKeys;
    assert Distinct(GROUP_KEYS) && BareKeys(GROUP_KEYS);
    KeysAreGood(GroupFields(g), GROUP_KEYS);
  }

  const RESERVE_KEYS := ["id", "coalition", "group_type", "available", "cost", "allowed_sector_ids", "status", "emergency",
                         "attrition_count", "replacement_pool"]

  lemma ReserveKeys(r: ReserveGroup)
    ensures GoodKeys(ReserveFields(r))
  {
    BareWords1();
    BareWords3();
    BareWords4();
    BareWords5();
    BarePoolWords();
    hide IsBare, GoodKeys;
    assert Distinct(RESERVE_KEYS) && BareKeys(RESERVE_KEYS);
    KeysAreGood(ReserveFields(r), RESERVE_KEYS);
  }

  const ZONE_KEYS := ["id", "name", "sector_id", "center_lat", "center_lng", "radius_nm", "tags"]

  lemma ZoneKeys(z: Zone)
    ensures GoodKeys(ZoneFields(z))
  {
    BareWords1();
    BareWords2();
    hide IsBare, GoodKeys;
    assert Distinct(ZONE_KEYS) && BareKeys(ZONE_KEYS);
    KeysAreGood(ZoneFields(z), ZONE_KEYS);
  }

  const RESTRICTION_KEYS := ["id", "coalition", "restriction_type", "description", "sector_ids", "control_point_ids",
                             "adjacency_limited"]

  lemma RestrictionKeys(r: Restriction)
    ensures GoodKeys(RestrictionFields(r))
  {
    BareWords1();
    BareWords3();
    BareWords5();
    BareWords6();
    hide IsBare, GoodKeys;
    assert Distinct(RESTRICTION_KEYS) && BareKeys(RESTRICTION_KEYS);
    KeysAreGood(RestrictionFields(r), RESTRICTION_KEYS);
  }

  const HEAD_KEYS := ["id", "version", "name", "theater", "summary"]

  lemma HeadKeys(sc: Scenario)
    ensures GoodKeys(HeadFields(sc))
  {
    BareWords1();
    BareWords6();
    hide IsBare, GoodKeys;
    assert Distinct(HEAD_KEYS) && BareKeys(HEAD_KEYS);
    KeysAreGood(HeadFields(sc), HEAD_KEYS);
  }

  const DICT_KEYS := ["id", "version", "name", "theater", "summary", "sectors", "control_points", "coalitions",
                      "active_groups", "reserve_groups", "zones", "deployment_restrictions"]

  lemma DictKeys(sc: Scenario)
    ensures GoodKeys(ToDict(sc))
  {
    BareWords1();
    BareWords6();
    BareWords7();
    hide IsBare, GoodKeys;
    assert Distinct(DICT_KEYS) && BareKeys(DICT_KEYS);
    KeysAreGood(ToDict(sc), DICT_KEYS);
  }

  lemma AllKeys(sc: Scenario)
    ensures GoodKeys(ToDict(sc)) && GoodKeys(HeadFields(sc))
    ensures (forall s: Sector :: GoodKeys(SectorFields(s))) && (forall p: ControlPoint :: GoodKeys(PointFields(p)))
    ensures (forall c: CoalitionState :: GoodKeys(CoalitionFields(c))) && (forall g: ActiveGroup :: GoodKeys(GroupFields(g)))
    ensures (forall r: ReserveGroup :: GoodKeys(ReserveFields(r))) && (forall z: Zone :: GoodKeys(ZoneFields(z)))
    ensures forall r: Restriction :: GoodKeys(RestrictionFields(r))
  {
    hide *;
    DictKeys(sc);
    HeadKeys(sc);
    forall s: Sector { SectorKeys(s); }
    forall p: ControlPoint { PointKeys(p); }
    forall c: CoalitionState { CoalitionKeys(c); }
    forall g: ActiveGroup { GroupKeys(g); }
    forall r: ReserveGroup { ReserveKeys(r); }
    forall z: Zone { ZoneKeys(z); }
    forall r: Restriction { RestrictionKeys(r); }
  }

  lemma DictsPresent<T>(raw: seq<Field>, key: string, xs: seq<T>, fields: T -> seq<Field>)
    requires Find(raw, key) == Some(VList(DictsOf(xs, fields)))
    requires forall i :: 0 <= i < |xs| ==> GoodKeys(fields(xs[i]))
    ensures ListedUnder(raw, key, xs, fields)
  {
    hide Carries, Find;
    forall i | 0 <= i < |xs| ensures Carries(DictsOf(xs, fields)[i].fields, fields(xs[i])) {
      CarriesItself(fields(xs[i]));
    }
  }

  lemma HeadInDict(sc: Scenario)
    ensures Carries(ToDict(sc), HeadFields(sc))
  {
    DictKeys(sc);
    var all, head := ToDict(sc), HeadFields(sc);
    hide ToDict, HeadFields, IsBare;
    CarriesItself(all);
    hide Tells, GoodKeys;
    HeadIsPrefix(sc);
    forall i | 0 <= i < |head| ensures Tells(all, head[i]) {
      assert all[i] == head[i];
    }
  }

  lemma HeadIsPrefix(sc: Scenario)
    ensures HeadFields(sc) <= ToDict(sc)
  {
    hide DictsOf;
  }

  lemma TablesInDict(sc: Scenario)
    ensures Find(ToDict(sc), "sectors") == Some(VList(DictsOf(sc.sectors, SectorFields)))
    ensures Find(ToDict(sc), "control_points") == Some(VList(DictsOf(sc.controlPoints, PointFields)))
    ensures Find(ToDict(sc), "coalitions") == Some(VList(DictsOf(sc.coalitions, CoalitionFields)))
    ensures Find(ToDict(sc), "active_groups") == Some(VList(DictsOf(sc.activeGroups, GroupFields)))
    ensures Find(ToDict(sc), "reserve_groups") == Some(VList(DictsOf(sc.reserveGroups, ReserveFields)))
    ensures Find(ToDict(sc), "zones") == Some(VList(DictsOf(sc.zones, ZoneFields)))
    ensures Find(ToDict(sc), "deployment_restrictions") == Some(VList(DictsOf(sc.restrictions, RestrictionFields)))
  {
    DictKeys(sc);
    var all := ToDict(sc);
    hide DictsOf, IsBare, Find;
    FindOwn(all, 5);
    FindOwn(all, 6);
    FindOwn(all, 7);
    FindOwn(all, 8);
    FindOwn(all, 9);
    FindOwn(all, 10);
    FindOwn(all, 11);
  }

  /** A scenario with filled texts and no dangling reference loads from its dictionary form. */
  lemma GoodScenarioLoads(casts: Casts, sc: Scenario)
    requires GoodRecords(sc) && Consistent(sc)
    ensures Load(casts, ToDict(sc)) == Ok(sc)
  {
    hide Load;
    HeadInDict(sc);
    TablesInDict(sc);
    AllKeys(sc);
    hide ToDict, Find, DictsOf, Consistent, GoodRecords, GoodKeys, Carries, SectorFields, PointFields, CoalitionFields, GroupFields,
      ReserveFields, ZoneFields, RestrictionFields, ListedUnder;
    DictsPresent(ToDict(sc), "sectors", sc.sectors, SectorFields);
    DictsPresent(ToDict(sc), "control_points", sc.controlPoints, PointFields);
    DictsPresent(ToDict(sc), "coalitions", sc.coalitions, CoalitionFields);
    DictsPresent(ToDict(sc), "active_groups", sc.activeGroups, GroupFields);
    DictsPresent(ToDict(sc), "reserve_groups", sc.reserveGroups, ReserveFields);
    DictsPresent(ToDict(sc), "zones", sc.zones, ZoneFields);
    DictsPresent(ToDict(sc), "deployment_restrictions", sc.restrictions, RestrictionFields);
    PresentedLoads(casts, ToDict(sc), sc);
  }

  /** Loading the dictionary form of a loaded scenario gives the scenario back. */
  lemma DictionaryRoundTrip(casts: Casts, raw: seq<Field>)
    requires Load(casts, raw).Ok?
    ensures Load(casts, ToDict(Load(casts, raw).value)) == Load(casts, raw)
  {
    hide Load, ToDict, GoodRecords, Consistent;
    LoadedIsGood(casts, raw);
    GoodScenarioLoads(casts, Load(casts, raw).value);
  }

  /** However numbers are read, some dictionary loads as the scenario: its own. */
  ghost predicate Loadable(sc: Scenario) {
    forall casts :: Load(casts, ToDict(sc)) == Ok(sc)
  }

  lemma GoodIsLoadable(sc: Scenario)
    requires GoodRecords(sc) && Consistent(sc)
    ensures Loadable(sc)
  {
    hide Load, ToDict, GoodRecords, Consistent;
    forall casts {
      GoodScenarioLoads(casts, sc);
    }
  }

  lemma ConsistentResolves(sc: Scenario)
    requires Consistent(sc)
    ensures ReferencesResolve(sc)
  {
  }

  /** What can be loaded at all is exactly the scenarios with filled texts and no dangling reference. */
  lemma LoadableIff(casts: Casts, sc: Scenario)
    ensures (exists raw :: Load(casts, raw) == Ok(sc)) <==> GoodRecords(sc) && Consistent(sc)
  {
    hide Load, ToDict, GoodRecords, Consistent;
    if GoodRecords(sc) && Consistent(sc) {
      GoodScenarioLoads(casts, sc);
    }
    if raw :| Load(casts, raw) == Ok(sc) {
      LoadedIsGood(casts, raw);
    }
  }
}
