/** A scenario written to a file and read back is the same scenario, exactly when its texts hold
    no control characters. */
module ScenarioFiles {
  import opened Domain
  import opened Requests
  import opened Toml
  import opened TomlRoundTrip
  import opened TomlDocument
  import opened TomlFiles
  import opened ScenarioCodec
  import opened ScenarioRoundTrip

  function RowsFor<T>(name: string, xs: seq<T>, fields: T -> seq<Field>): (r: seq<Row>)
    ensures |r| == |xs| && forall i :: 0 <= i < |r| ==> r[i] == Row(name, fields(xs[i]))
  {
    seq(|xs|, i requires 0 <= i < |xs| => Row(name, fields(xs[i])))
  }

  /** The tables of a scenario file, in the order they are written. */
  function ScenarioRows(sc: Scenario): seq<Row> {
    RowsFor("sectors", sc.sectors, SectorFields) + RowsFor("control_points", sc.controlPoints, PointFields)
    + RowsFor("coalitions", sc.coalitions, CoalitionFields) + RowsFor("active_groups", sc.activeGroups, GroupFields)
    + RowsFor("reserve_groups", sc.reserveGroups, ReserveFields) + RowsFor("zones", sc.zones, ZoneFields)
    + RowsFor("deployment_restrictions", sc.restrictions, RestrictionFields)
  }

  function ScenarioDocument(sc: Scenario): Document {
    Document(HeadFields(sc), ScenarioRows(sc))
  }

  /** Every float of the scenario is written so that it reads back. */
  predicate FaithfulFloats(codec: FloatCodec, sc: Scenario) {
    && (forall s <- sc.sectors ::
          Faithful(codec, s.radiusNm) && (s.centerLat.Some? ==> Faithful(codec, s.centerLat.value))
          && (s.centerLng.Some? ==> Faithful(codec, s.centerLng.value)))
    && (forall p <- sc.controlPoints ::
          (p.lat.Some? ==> Faithful(codec, p.lat.value)) && (p.lng.Some? ==> Faithful(codec, p.lng.value)))
    && (forall z <- sc.zones ::
          Faithful(codec, z.centerLat) && Faithful(codec, z.centerLng) && Faithful(codec, z.radiusNm))
  }

  // --------------------------------------------------------- every record is printable

  /** Ready to be printed, and without nulls inside its values. */
  ghost predicate Ready(codec: FloatCodec, fields: seq<Field>) {
    FitFields(codec, fields) && forall i :: 0 <= i < |fields| ==> Whole(fields[i].value)
  }

  ghost predicate ReadyValue(codec: FloatCodec, v: Value) {
    v == VNull || (Printable(v) && Regular(codec, v) && Whole(v))
  }

  lemma ReadyFields(codec: FloatCodec, fields: seq<Field>)
    requires GoodKeys(fields) && forall i :: 0 <= i < |fields| ==> ReadyValue(codec, fields[i].value)
    ensures Ready(codec, fields)
  {
    hide Printable, Regular, IsBare;
    assert Whole(VNull);
    assert Regular(codec, VNull) by { NullIsRegular(codec); }
  }

  lemma NullIsRegular(codec: FloatCodec)
    ensures Regular(codec, VNull)
  {
  }

  lemma ListReady(codec: FloatCodec, items: seq<Value>)
    requires forall i :: 0 <= i < |items| ==> items[i] != VNull && ReadyValue(codec, items[i])
    ensures ReadyValue(codec, VList(items))
  {
    assert StrippedItems(items) == items;
  }

  lemma TextListReady(codec: FloatCodec, items: seq<string>)
    ensures ReadyValue(codec, TextList(items))
  {
    ScalarsReady(codec);
    hide ReadyValue;
    ListReady(codec, TextList(items).items);
  }

  lemma ScalarsReady(codec: FloatCodec)
    ensures forall s :: ReadyValue(codec, VStr(s))
    ensures forall b :: ReadyValue(codec, VBool(b))
    ensures forall n :: ReadyValue(codec, VInt(n))
    ensures forall x :: Faithful(codec, x) ==> ReadyValue(codec, VFloat(x))
  {
    hide Faithful;
  }

  lemma {:induction false} WholeFields(fields: seq<Field>)
    requires forall i :: 0 <= i < |fields| ==> fields[i].value != VNull && Whole(fields[i].value)
    ensures StrippedFields(fields) == fields
  {
    if fields != [] {
      hide Stripped;
      WholeFields(fields[1..]);
      assert fields == [fields[0]] + fields[1..];
    }
  }

  lemma OrderReady(codec: FloatCodec, o: AuthoredOrder)
    ensures ReadyValue(codec, VDict(OrderFields(o)))
  {
    OrderKeys(o);
    ScalarsReady(codec);
    var fields := OrderFields(o);
    WholeFields(fields);
  }

  lemma OrdersReady(codec: FloatCodec, os: seq<AuthoredOrder>)
    ensures ReadyValue(codec, VList(OrderItems(os)))
  {
    var items := OrderItems(os);
    hide OrderFields, ReadyValue;
    forall i | 0 <= i < |items| ensures ReadyValue(codec, items[i]) && items[i] != VNull {
      OrderReady(codec, os[i]);
    }
    ListReady(codec, items);
  }

  lemma SectorReady(codec: FloatCodec, s: Sector)
    requires Faithful(codec, s.radiusNm) && (s.centerLat.Some? ==> Faithful(codec, s.centerLat.value))
    requires s.centerLng.Some? ==> Faithful(codec, s.centerLng.value)
    ensures Ready(codec, SectorFields(s))
  {
    SectorKeys(s);
    ScalarsReady(codec);
    TextListReady(codec, s.neighborIds);
    TextListReady(codec, s.tags);
    hide GoodKeys, Ready, Printable, Regular, Whole, TextList, Faithful;
    assert ReadyValue(codec, VNull);
    hide ReadyValue;
    ReadyFields(codec, SectorFields(s));
  }

  lemma PointReady(codec: FloatCodec, p: ControlPoint)
    requires (p.lat.Some? ==> Faithful(codec, p.lat.value)) && (p.lng.Some? ==> Faithful(codec, p.lng.value))
    ensures Ready(codec, PointFields(p))
  {
    PointKeys(p);
    ScalarsReady(codec);
    hide GoodKeys, Ready, Printable, Regular, Whole, CoalitionName, Faithful;
    assert ReadyValue(codec, VNull);
    hide ReadyValue;
    ReadyFields(codec, PointFields(p));
  }

  lemma CoalitionReady(codec: FloatCodec, c: CoalitionState)
    ensures Ready(codec, CoalitionFields(c))
  {
    CoalitionKeys(c);
    ScalarsReady(codec);
    TextListReady(codec, c.objectives);
    TextListReady(codec, c.reserveIds);
    OrdersReady(codec, c.standingOrders);
    hide GoodKeys, Ready, ReadyValue, TextList, CoalitionName, OrderItems;
    ReadyFields(codec, CoalitionFields(c));
  }

  lemma GroupReady(codec: FloatCodec, g: ActiveGroup)
    ensures Ready(codec, GroupFields(g))
  {
    GroupKeys(g);
    ScalarsReady(codec);
    hide GoodKeys, Ready, Printable, Regular, Whole, CoalitionName, PostureName;
    assert ReadyValue(codec, VNull);
    hide ReadyValue;
    ReadyFields(codec, GroupFields(g));
  }

  lemma ReserveReady(codec: FloatCodec, r: ReserveGroup)
    ensures Ready(codec, ReserveFields(r))
  {
    ReserveKeys(r);
    ScalarsReady(codec);
    TextListReady(codec, r.allowedSectorIds);
    hide GoodKeys, Ready, ReadyValue, TextList, CoalitionName;
    ReadyFields(codec, ReserveFields(r));
  }

  lemma ZoneReady(codec: FloatCodec, z: Zone)
    requires Faithful(codec, z.centerLat) && Faithful(codec, z.centerLng) && Faithful(codec, z.radiusNm)
    ensures Ready(codec, ZoneFields(z))
  {
    ZoneKeys(z);
    ScalarsReady(codec);
    TextListReady(codec, z.tags);
    hide GoodKeys, Ready, ReadyValue, TextList, Faithful;
    ReadyFields(codec, ZoneFields(z));
  }

  lemma RestrictionReady(codec: FloatCodec, r: Restriction)
    ensures Ready(codec, RestrictionFields(r))
  {
    RestrictionKeys(r);
    ScalarsReady(codec);
    TextListReady(codec, r.sectorIds);
    TextListReady(codec, r.controlPointIds);
    hide GoodKeys, Ready, Printable, Regular, Whole, TextList, CoalitionName;
    assert ReadyValue(codec, VNull);
    hide ReadyValue;
    ReadyFields(codec, RestrictionFields(r));
  }

  lemma HeadReady(codec: FloatCodec, sc: Scenario)
    ensures Ready(codec, HeadFields(sc)) && StrippedFields(HeadFields(sc)) == HeadFields(sc)
  {
    HeadKeys(sc);
    ScalarsReady(codec);
    hide GoodKeys, Ready, ReadyValue;
    ReadyFields(codec, HeadFields(sc));
    assert Ready(codec, HeadFields(sc));
    HeadWhole(codec, sc);
  }

  lemma HeadWhole(codec: FloatCodec, sc: Scenario)
    ensures StrippedFields(HeadFields(sc)) == HeadFields(sc)
  {
    WholeFields(HeadFields(sc));
  }

  // ----------------------------------------------------------------- the document

  lemma RowsReady<T>(codec: FloatCodec, name: string, xs: seq<T>, fields: T -> seq<Field>)
    requires IsBare(name) && forall x <- xs :: Ready(codec, fields(x))
    ensures forall row <- RowsFor(name, xs, fields) :: row.name == name && Ready(codec, row.fields)
  {
    hide Ready;
    var rows := RowsFor(name, xs, fields);
    forall row | row in rows ensures row.name == name && Ready(codec, row.fields) {
      var i :| 0 <= i < |rows| && rows[i] == row;
      assert xs[i] in xs;
    }
  }

  const TABLE_NAMES :=
    ["sectors", "control_points", "coalitions", "active_groups", "reserve_groups", "zones", "deployment_restrictions"]

  lemma TableNames(sc: Scenario)
    ensures forall name <- TABLE_NAMES :: IsBare(name) && !HasKey(HeadFields(sc), name)
    ensures Distinct(TABLE_NAMES)
  {
    DictKeys(sc);
    var all := ToDict(sc);
    assert forall i :: 0 <= i < |TABLE_NAMES| ==> all[5 + i].key == TABLE_NAMES[i];
    hide IsBare, DictsOf, Distinct;
    forall name | name in TABLE_NAMES ensures IsBare(name) && !HasKey(HeadFields(sc), name) {
      var i :| 0 <= i < |TABLE_NAMES| && TABLE_NAMES[i] == name;
      assert all[5 + i].key == name;
      forall f | f in HeadFields(sc) ensures f.key != name {
        var j :| 0 <= j < |HeadFields(sc)| && HeadFields(sc)[j] == f;
        assert all[j] == f;
      }
    }
  }

  /** All rows of the file are ready, and named like tables of a scenario. */
  lemma ScenarioRowsReady(codec: FloatCodec, sc: Scenario)
    requires FaithfulFloats(codec, sc)
    ensures forall row <- ScenarioRows(sc) :: row.name in TABLE_NAMES && Ready(codec, row.fields)
  {
    TableNames(sc);
    var n := TABLE_NAMES;
    assert n[0] in n && n[1] in n && n[2] in n && n[3] in n && n[4] in n && n[5] in n && n[6] in n;
    forall s | s in sc.sectors ensures Ready(codec, SectorFields(s)) { SectorReady(codec, s); }
    forall p | p in sc.controlPoints ensures Ready(codec, PointFields(p)) { PointReady(codec, p); }
    forall c | c in sc.coalitions ensures Ready(codec, CoalitionFields(c)) { CoalitionReady(codec, c); }
    forall g | g in sc.activeGroups ensures Ready(codec, GroupFields(g)) { GroupReady(codec, g); }
    forall r | r in sc.reserveGroups ensures Ready(codec, ReserveFields(r)) { ReserveReady(codec, r); }
    forall z | z in sc.zones ensures Ready(codec, ZoneFields(z)) { ZoneReady(codec, z); }
    forall r | r in sc.restrictions ensures Ready(codec, RestrictionFields(r)) { RestrictionReady(codec, r); }
    hide *;
    RowsReady(codec, n[0], sc.sectors, SectorFields);
    RowsReady(codec, n[1], sc.controlPoints, PointFields);
    RowsReady(codec, n[2], sc.coalitions, CoalitionFields);
    RowsReady(codec, n[3], sc.activeGroups, GroupFields);
    RowsReady(codec, n[4], sc.reserveGroups, ReserveFields);
    RowsReady(codec, n[5], sc.zones, ZoneFields);
    RowsReady(codec, n[6], sc.restrictions, RestrictionFields);
    AnyRow(sc);
  }

  lemma AnyRow(sc: Scenario)
    ensures forall row :: row in ScenarioRows(sc) <==>
      || row in RowsFor("sectors", sc.sectors, SectorFields) || row in RowsFor("control_points", sc.controlPoints, PointFields)
      || row in RowsFor("coalitions", sc.coalitions, CoalitionFields)
      || row in RowsFor("active_groups", sc.activeGroups, GroupFields)
      || row in RowsFor("reserve_groups", sc.reserveGroups, ReserveFields) || row in RowsFor("zones", sc.zones, ZoneFields)
      || row in RowsFor("deployment_restrictions", sc.restrictions, RestrictionFields)
  {
    hide RowsFor;
  }

  lemma DocumentRegular(codec: FloatCodec, sc: Scenario)
    requires FaithfulFloats(codec, sc)
    ensures RegularDocument(codec, ScenarioDocument(sc))
  {
    ScenarioRowsReady(codec, sc);
    HeadReady(codec, sc);
    TableNames(sc);
    hide FitFields, HasKey, IsBare, ScenarioRows, HeadFields, Whole;
  }

  // ------------------------------------------------------------ reading it back

  lemma {:induction false} FindInSum(a: seq<Field>, b: seq<Field>, key: string)
    ensures Find(a + b, key) == if Find(a, key).Some? then Find(a, key) else Find(b, key)
  {
    if a == [] {
      assert a + b == b;
    } else {
      assert (a + b)[1..] == a[1..] + b;
      FindInSum(a[1..], b, key);
    }
  }

  lemma {:induction false} FindArray(rows: seq<Row>, names: seq<string>, name: string)
    ensures Find(ArraysOf(rows, names), name) == if name in names then Some(VList(Tables(rows, name))) else None
  {
    hide Tables;
    var fields := ArraysOf(rows, names);
    if names != [] {
      assert names == [names[0]] + names[1..];
      assert fields[1..] == ArraysOf(rows, names[1..]);
      FindArray(rows, names[1..], name);
    }
  }

  lemma {:induction false} NoTables(rows: seq<Row>, name: string)
    requires forall row <- rows :: row.name != name
    ensures Tables(rows, name) == []
  {
    if rows != [] {
      NoTables(rows[..|rows| - 1], name);
    }
  }

  /** What the document has under the name of a table. */
  lemma ArrayUnder(top: seq<Field>, rows: seq<Row>, name: string)
    requires !HasKey(top, name)
    ensures GetOr(AsFields(Document(top, rows)), name, VList([])) == VList(Tables(rows, name))
  {
    var names := Unique(RowNames(rows));
    FindInSum(top, ArraysOf(rows, names), name);
    FindMissing(top, name);
    FindArray(rows, names, name);
    if name !in names {
      forall row | row in rows ensures row.name != name {
        var i :| 0 <= i < |rows| && rows[i] == row;
        assert RowNames(rows)[i] == row.name;
      }
      NoTables(rows, name);
    }
  }

  lemma {:induction false} TablesOfSum(a: seq<Row>, b: seq<Row>, name: string)
    ensures Tables(a + b, name) == Tables(a, name) + Tables(b, name)
    decreases |b|
  {
    if b == [] {
      assert a + b == a;
    } else {
      assert (a + b)[..|a + b| - 1] == a + b[..|b| - 1];
      TablesOfSum(a, b[..|b| - 1], name);
    }
  }

  function StrippedDicts<T>(xs: seq<T>, fields: T -> seq<Field>): (r: seq<Value>)
    ensures |r| == |xs| && forall i :: 0 <= i < |r| ==> r[i] == VDict(StrippedFields(fields(xs[i])))
  {
    seq(|xs|, i requires 0 <= i < |xs| => VDict(StrippedFields(fields(xs[i]))))
  }

  lemma {:induction false} TablesOfRows<T>(name: string, xs: seq<T>, fields: T -> seq<Field>, other: string)
    ensures Tables(StrippedRows(RowsFor(name, xs, fields)), other) == if name == other then StrippedDicts(xs, fields) else []
  {
    hide StrippedFields;
    var rows := StrippedRows(RowsFor(name, xs, fields));
    if xs != [] {
      var front := xs[..|xs| - 1];
      TablesOfRows(name, front, fields, other);
      assert rows[..|rows| - 1] == StrippedRows(RowsFor(name, front, fields));
      assert name == other ==> StrippedDicts(xs, fields) == StrippedDicts(front, fields) + [VDict(StrippedFields(fields(xs[|xs| - 1])))];
    }
  }

  lemma StrippedRowsOfSum(a: seq<Row>, b: seq<Row>)
    ensures StrippedRows(a + b) == StrippedRows(a) + StrippedRows(b)
  {
  }

  /** One table array among others: only its own rows are filed under its name. */
  lemma TablesNext<T>(before: seq<Row>, name: string, xs: seq<T>, fields: T -> seq<Field>, other: string)
    ensures Tables(StrippedRows(before + RowsFor(name, xs, fields)), other) ==
            Tables(StrippedRows(before), other) + if name == other then StrippedDicts(xs, fields) else []
  {
    StrippedRowsOfSum(before, RowsFor(name, xs, fields));
    TablesOfSum(StrippedRows(before), StrippedRows(RowsFor(name, xs, fields)), other);
    TablesOfRows(name, xs, fields, other);
  }

  function Only<T>(name: string, other: string, xs: seq<T>, fields: T -> seq<Field>): seq<Value> {
    if name == other then StrippedDicts(xs, fields) else []
  }

  lemma TablesByName(sc: Scenario, name: string)
    ensures Tables(StrippedRows(ScenarioRows(sc)), name) ==
      Only("sectors", name, sc.sectors, SectorFields) + Only("control_points", name, sc.controlPoints, PointFields)
      + Only("coalitions", name, sc.coalitions, CoalitionFields) + Only("active_groups", name, sc.activeGroups, GroupFields)
      + Only("reserve_groups", name, sc.reserveGroups, ReserveFields) + Only("zones", name, sc.zones, ZoneFields)
      + Only("deployment_restrictions", name, sc.restrictions, RestrictionFields)
  {
    hide Tables, StrippedRows, RowsFor, StrippedDicts;
    var r1 := RowsFor("sectors", sc.sectors, SectorFields);
    TablesOfRows("sectors", sc.sectors, SectorFields, name);
    var r2 := r1 + RowsFor("control_points", sc.controlPoints, PointFields);
    TablesNext(r1, "control_points", sc.controlPoints, PointFields, name);
    var r3 := r2 + RowsFor("coalitions", sc.coalitions, CoalitionFields);
    TablesNext(r2, "coalitions", sc.coalitions, CoalitionFields, name);
    var r4 := r3 + RowsFor("active_groups", sc.activeGroups, GroupFields);
    TablesNext(r3, "active_groups", sc.activeGroups, GroupFields, name);
    var r5 := r4 + RowsFor("reserve_groups", sc.reserveGroups, ReserveFields);
    TablesNext(r4, "reserve_groups", sc.reserveGroups, ReserveFields, name);
    var r6 := r5 + RowsFor("zones", sc.zones, ZoneFields);
    TablesNext(r5, "zones", sc.zones, ZoneFields, name);
    TablesNext(r6, "deployment_restrictions", sc.restrictions, RestrictionFields, name);
  }

  lemma OwnTables(sc: Scenario)
    ensures var rows := StrippedRows(ScenarioRows(sc));
      && Tables(rows, "sectors") == StrippedDicts(sc.sectors, SectorFields)
      && Tables(rows, "control_points") == StrippedDicts(sc.controlPoints, PointFields)
      && Tables(rows, "coalitions") == StrippedDicts(sc.coalitions, CoalitionFields)
      && Tables(rows, "active_groups") == StrippedDicts(sc.activeGroups, GroupFields)
      && Tables(rows, "reserve_groups") == StrippedDicts(sc.reserveGroups, ReserveFields)
      && Tables(rows, "zones") == StrippedDicts(sc.zones, ZoneFields)
      && Tables(rows, "deployment_restrictions") == StrippedDicts(sc.restrictions, RestrictionFields)
  {
    hide Tables, StrippedRows, ScenarioRows, StrippedDicts;
    var n := TABLE_NAMES;
    TablesByName(sc, n[0]);
    TablesByName(sc, n[1]);
    TablesByName(sc, n[2]);
    TablesByName(sc, n[3]);
    TablesByName(sc, n[4]);
    TablesByName(sc, n[5]);
    TablesByName(sc, n[6]);
  }

  lemma DictsList<T>(codec: FloatCodec, xs: seq<T>, fields: T -> seq<Field>)
    requires forall x <- xs :: Ready(codec, fields(x))
    ensures Lists(StrippedDicts(xs, fields), xs, fields)
  {
    hide Carries, StrippedFields;
    forall i | 0 <= i < |xs| ensures Carries(StrippedFields(fields(xs[i])), fields(xs[i])) {
      assert xs[i] in xs;
      CarriesStripped(fields(xs[i]));
    }
  }

  lemma HeadCarried(sc: Scenario, rows: seq<Row>)
    ensures Carries(AsFields(Document(HeadFields(sc), rows)), HeadFields(sc))
  {
    HeadKeys(sc);
    var head := HeadFields(sc);
    hide HeadFields, ArraysOf, IsBare;
    forall i | 0 <= i < |head| ensures Tells(AsFields(Document(head, rows)), head[i]) {
      FindOwn(head, i);
      FindInSum(head, ArraysOf(rows, Unique(RowNames(rows))), head[i].key);
    }
  }

  /** What is read back from the file presents the scenario. */
  lemma FilePresents(codec: FloatCodec, sc: Scenario)
    requires FaithfulFloats(codec, sc)
    ensures Presents(AsFields(Document(HeadFields(sc), StrippedRows(ScenarioRows(sc)))), sc)
  {
    var top, rows := HeadFields(sc), StrippedRows(ScenarioRows(sc));
    HeadCarried(sc, rows);
    OwnTables(sc);
    TableNames(sc);
    forall s | s in sc.sectors ensures Ready(codec, SectorFields(s)) { SectorReady(codec, s); }
    forall p | p in sc.controlPoints ensures Ready(codec, PointFields(p)) { PointReady(codec, p); }
    forall c | c in sc.coalitions ensures Ready(codec, CoalitionFields(c)) { CoalitionReady(codec, c); }
    forall g | g in sc.activeGroups ensures Ready(codec, GroupFields(g)) { GroupReady(codec, g); }
    forall r | r in sc.reserveGroups ensures Ready(codec, ReserveFields(r)) { ReserveReady(codec, r); }
    forall z | z in sc.zones ensures Ready(codec, ZoneFields(z)) { ZoneReady(codec, z); }
    forall r | r in sc.restrictions ensures Ready(codec, RestrictionFields(r)) { RestrictionReady(codec, r); }
    hide *;
    DictsList(codec, sc.sectors, SectorFields);
    DictsList(codec, sc.controlPoints, PointFields);
    DictsList(codec, sc.coalitions, CoalitionFields);
    DictsList(codec, sc.activeGroups, GroupFields);
    DictsList(codec, sc.reserveGroups, ReserveFields);
    DictsList(codec, sc.zones, ZoneFields);
    DictsList(codec, sc.restrictions, RestrictionFields);
    ArrayUnder(top, rows, "sectors");
    ArrayUnder(top, rows, "control_points");
    ArrayUnder(top, rows, "coalitions");
    ArrayUnder(top, rows, "active_groups");
    ArrayUnder(top, rows, "reserve_groups");
    ArrayUnder(top, rows, "zones");
    ArrayUnder(top, rows, "deployment_restrictions");
    TablesPresent(AsFields(Document(top, rows)), sc);
  }

  lemma TablesPresent(raw: seq<Field>, sc: Scenario)
    requires Carries(raw, HeadFields(sc))
    requires GetOr(raw, "sectors", VList([])) == VList(StrippedDicts(sc.sectors, SectorFields))
    requires GetOr(raw, "control_points", VList([])) == VList(StrippedDicts(sc.controlPoints, PointFields))
    requires GetOr(raw, "coalitions", VList([])) == VList(StrippedDicts(sc.coalitions, CoalitionFields))
    requires GetOr(raw, "active_groups", VList([])) == VList(StrippedDicts(sc.activeGroups, GroupFields))
    requires GetOr(raw, "reserve_groups", VList([])) == VList(StrippedDicts(sc.reserveGroups, ReserveFields))
    requires GetOr(raw, "zones", VList([])) == VList(StrippedDicts(sc.zones, ZoneFields))
    requires GetOr(raw, "deployment_restrictions", VList([])) == VList(StrippedDicts(sc.restrictions, RestrictionFields))
    requires Lists(StrippedDicts(sc.sectors, SectorFields), sc.sectors, SectorFields)
    requires Lists(StrippedDicts(sc.controlPoints, PointFields), sc.controlPoints, PointFields)
    requires Lists(StrippedDicts(sc.coalitions, CoalitionFields), sc.coalitions, CoalitionFields)
    requires Lists(StrippedDicts(sc.activeGroups, GroupFields), sc.activeGroups, GroupFields)
    requires Lists(StrippedDicts(sc.reserveGroups, ReserveFields), sc.reserveGroups, ReserveFields)
    requires Lists(StrippedDicts(sc.zones, ZoneFields), sc.zones, ZoneFields)
    requires Lists(StrippedDicts(sc.restrictions, RestrictionFields), sc.restrictions, RestrictionFields)
    ensures Presents(raw, sc)
  {
    hide GetOr, Carries, Lists, StrippedDicts, HeadFields;
  }

  // -------------------------------------------------------------------- the file

  /** No text of the scenario holds a control character other than a tab. */
  ghost predicate PlainTexts(sc: Scenario) {
    CleanDocument(ScenarioDocument(sc))
  }

  function ScenarioText(codec: FloatCodec, sc: Scenario): string
    requires PrintableLines(DocumentLines(ScenarioDocument(sc)))
  {
    DocumentText(codec, ScenarioDocument(sc))
  }

  /** The file round trip, exactly.  For every scenario that was ever loaded: writing it as a file,
      reading the file and loading the result gives the scenario back if no text holds a control
      character; if one does, the file cannot be read. */
  lemma FileRoundTrip(codec: FloatCodec, casts: Casts, raw: seq<Field>)
    requires Load(casts, raw).Ok? && FaithfulFloats(codec, Load(casts, raw).value)
    ensures var sc := Load(casts, raw).value;
      && PrintableLines(DocumentLines(ScenarioDocument(sc)))
      && var file := ReadDocument(codec, ScenarioText(codec, sc));
      && (PlainTexts(sc) ==> file.Some? && Load(casts, file.value) == Ok(sc))
      && (!PlainTexts(sc) ==> file == None)
  {
    hide Load, ReadDocument, DocumentText, DocumentLines, PrintableLines, CleanDocument, Presents, RegularDocument, FaithfulFloats,
      GoodRecords, Consistent, ScenarioRows, StrippedRows, AsFields;
    var sc := Load(casts, raw).value;
    LoadedIsGood(casts, raw);
    DocumentRegular(codec, sc);
    DocumentRoundTrip(codec, ScenarioDocument(sc));
    HeadWhole(codec, sc);
    FilePresents(codec, sc);
    PresentedLoads(casts, AsFields(Document(HeadFields(sc), StrippedRows(ScenarioRows(sc)))), sc);
  }

  // ----------------------------------------------------------------- the serializer

  ghost predicate PrintableValue(v: Value) {
    v == VNull || Printable(v)
  }

  lemma ScalarsPrintable()
    ensures PrintableValue(VNull) && (forall s :: PrintableValue(VStr(s))) && (forall b :: PrintableValue(VBool(b)))
    ensures (forall n :: PrintableValue(VInt(n))) && forall x :: PrintableValue(VFloat(x))
  {
  }

  lemma TextListPrintable(items: seq<string>)
    ensures PrintableValue(TextList(items))
  {
  }

  lemma OrderPrintable(o: AuthoredOrder)
    ensures Printable(VDict(OrderFields(o)))
  {
  }

  lemma OrdersPrintable(os: seq<AuthoredOrder>)
    ensures PrintableValue(VList(OrderItems(os)))
  {
    hide OrderFields;
    forall i | 0 <= i < |os| ensures Printable(OrderItems(os)[i]) {
      OrderPrintable(os[i]);
    }
  }

  lemma ValuesPrintable(fields: seq<Field>)
    requires forall i :: 0 <= i < |fields| ==> PrintableValue(fields[i].value)
    ensures PrintableFields(fields)
  {
  }

  lemma SectorPrintable(s: Sector)
    ensures PrintableFields(SectorFields(s))
  {
    ScalarsPrintable();
    TextListPrintable(s.neighborIds);
    TextListPrintable(s.tags);
    hide PrintableValue, PrintableFields, TextList, OrderItems, CoalitionName, PostureName;
    ValuesPrintable(SectorFields(s));
  }

  lemma PointPrintable(p: ControlPoint)
    ensures PrintableFields(PointFields(p))
  {
    ScalarsPrintable();
    hide PrintableValue, PrintableFields, TextList, OrderItems, CoalitionName, PostureName;
    ValuesPrintable(PointFields(p));
  }

  lemma CoalitionPrintable(c: CoalitionState)
    ensures PrintableFields(CoalitionFields(c))
  {
    ScalarsPrintable();
    TextListPrintable(c.objectives);
    TextListPrintable(c.reserveIds);
    OrdersPrintable(c.standingOrders);
    hide PrintableValue, PrintableFields, TextList, OrderItems, CoalitionName, PostureName;
    ValuesPrintable(CoalitionFields(c));
  }

  lemma GroupPrintable(g: ActiveGroup)
    ensures PrintableFields(GroupFields(g))
  {
    ScalarsPrintable();
    hide PrintableValue, PrintableFields, TextList, OrderItems, CoalitionName, PostureName;
    ValuesPrintable(GroupFields(g));
  }

  lemma ReservePrintable(r: ReserveGroup)
    ensures PrintableFields(ReserveFields(r))
  {
    ScalarsPrintable();
    TextListPrintable(r.allowedSectorIds);
    hide PrintableValue, PrintableFields, TextList, OrderItems, CoalitionName, PostureName;
    ValuesPrintable(ReserveFields(r));
  }

  lemma ZonePrintable(z: Zone)
    ensures PrintableFields(ZoneFields(z))
  {
    ScalarsPrintable();
    TextListPrintable(z.tags);
    hide PrintableValue, PrintableFields, TextList, OrderItems, CoalitionName, PostureName;
    ValuesPrintable(ZoneFields(z));
  }

  lemma RestrictionPrintable(r: Restriction)
    ensures PrintableFields(RestrictionFields(r))
  {
    ScalarsPrintable();
    TextListPrintable(r.sectorIds);
    TextListPrintable(r.controlPointIds);
    hide PrintableValue, PrintableFields, TextList, OrderItems, CoalitionName, PostureName;
    ValuesPrintable(RestrictionFields(r));
  }

  lemma RowsPrintable<T>(name: string, xs: seq<T>, fields: T -> seq<Field>)
    requires forall x <- xs :: PrintableFields(fields(x))
    ensures forall row <- RowsFor(name, xs, fields) :: PrintableFields(row.fields)
  {
    hide PrintableFields;
    var rows := RowsFor(name, xs, fields);
    forall row | row in rows ensures PrintableFields(row.fields) {
      var i :| 0 <= i < |rows| && rows[i] == row;
      assert xs[i] in xs;
    }
  }

  lemma ScenarioRowsPrintable(sc: Scenario)
    ensures PrintableRows(ScenarioRows(sc))
  {
    hide *;
    forall s | s in sc.sectors ensures PrintableFields(SectorFields(s)) { SectorPrintable(s); }
    forall p | p in sc.controlPoints ensures PrintableFields(PointFields(p)) { PointPrintable(p); }
    forall c | c in sc.coalitions ensures PrintableFields(CoalitionFields(c)) { CoalitionPrintable(c); }
    forall g | g in sc.activeGroups ensures PrintableFields(GroupFields(g)) { GroupPrintable(g); }
    forall r | r in sc.reserveGroups ensures PrintableFields(ReserveFields(r)) { ReservePrintable(r); }
    forall z | z in sc.zones ensures PrintableFields(ZoneFields(z)) { ZonePrintable(z); }
    forall r | r in sc.restrictions ensures PrintableFields(RestrictionFields(r)) { RestrictionPrintable(r); }
    RowsPrintable("sectors", sc.sectors, SectorFields);
    RowsPrintable("control_points", sc.controlPoints, PointFields);
    RowsPrintable("coalitions", sc.coalitions, CoalitionFields);
    RowsPrintable("active_groups", sc.activeGroups, GroupFields);
    RowsPrintable("reserve_groups", sc.reserveGroups, ReserveFields);
    RowsPrintable("zones", sc.zones, ZoneFields);
    RowsPrintable("deployment_restrictions", sc.restrictions, RestrictionFields);
    AnyRow(sc);
    AllRowsPrintable(ScenarioRows(sc));
  }

  lemma AllRowsPrintable(rows: seq<Row>)
    requires forall row <- rows :: PrintableFields(row.fields)
    ensures PrintableRows(rows)
  {
  }

  lemma TextsAround(codec: FloatCodec, a: seq<Line>, b: seq<Line>)
    requires PrintableLines(a) && PrintableLines(b)
    ensures PrintableLines(a + [Blank] + b)
    ensures LineTexts(codec, a + [Blank] + b) == LineTexts(codec, a) + [""] + LineTexts(codec, b)
  {
    var all := a + [Blank] + b;
    assert PrintableLines(all) by {
      hide Printable;
    }
    hide PrintableLines;
    assert LineText(codec, Blank) == "";
    hide LineText;
    var l, r := LineTexts(codec, all), LineTexts(codec, a) + [""] + LineTexts(codec, b);
    assert |l| == |r|;
    forall i | 0 <= i < |l| ensures l[i] == r[i] {
      assert l[i] == LineText(codec, all[i]);
    }
  }

  lemma DocumentTexts(codec: FloatCodec, doc: Document)
    requires PrintableFields(doc.top) && PrintableRows(doc.rows)
    ensures PrintableLines(PairLines(doc.top)) && PrintableLines(RowsLines(doc.rows)) && PrintableLines(DocumentLines(doc))
    ensures LineTexts(codec, DocumentLines(doc)) ==
            LineTexts(codec, PairLines(doc.top)) + [""] + LineTexts(codec, RowsLines(doc.rows))
  {
    PairLinesPrintable(doc.top);
    RowsLinesPrintable(doc.rows);
    TextsAround(codec, PairLines(doc.top), RowsLines(doc.rows));
    hide PrintableLines, PairLines, RowsLines, LineTexts, PrintableFields, PrintableRows, LineText;
  }

  lemma TextOfLines(codec: FloatCodec, sc: Scenario)
    ensures PrintableFields(HeadFields(sc)) && PrintableRows(ScenarioRows(sc))
    ensures PrintableLines(PairLines(HeadFields(sc))) && PrintableLines(RowsLines(ScenarioRows(sc)))
    ensures PrintableLines(DocumentLines(ScenarioDocument(sc)))
    ensures var lines :=
        LineTexts(codec, PairLines(HeadFields(sc))) + [""] + LineTexts(codec, RowsLines(ScenarioRows(sc)));
      ScenarioText(codec, sc) == Strip(Join(lines, "\n")) + "\n"
  {
    ScenarioRowsPrintable(sc);
    DocumentTexts(codec, ScenarioDocument(sc));
    hide HeadFields, ScenarioRows, PairLines, RowsLines, LineTexts, PrintableFields, PrintableLines, PrintableRows, Join, Strip,
      DocumentLines;
  }

  /** The serializer: key lines, a blank line, then the arrays of tables one after the other. */
  method SerializeScenario(codec: FloatCodec, sc: Scenario) returns (text: string)
    ensures PrintableLines(DocumentLines(ScenarioDocument(sc))) && text == ScenarioText(codec, sc)
  {
    hide *;
    TextOfLines(codec, sc);
    var lines := AppendPairs(codec, [], HeadFields(sc));
    lines := lines + [""];
    lines := AppendTableArray(codec, lines, ScenarioRows(sc));
    assert lines == LineTexts(codec, PairLines(HeadFields(sc))) + [""] + LineTexts(codec, RowsLines(ScenarioRows(sc)));
    text := Strip(Join(lines, "\n")) + "\n";
  }
}
