/** Whole scenario files: key lines and arrays of tables, after the "Array of Tables" section of
    TOML v1.0.0. */
module TomlDocument {
  import opened Domain
  import opened Requests
  import opened Toml

  datatype Line = Blank | Header(name: string) | Pair(field: Field)

  datatype Row = Row(name: string, fields: seq<Field>)

  /** A document as the printer sees it: key lines, then tables in order. */
  datatype Document = Document(top: seq<Field>, rows: seq<Row>)

  // ---------------------------------------------------------------------- printer

  function LineText(codec: FloatCodec, l: Line): string
    requires l.Pair? ==> Printable(l.field.value)
  {
    match l
    case Blank => ""
    case Header(name) => "[[" + name + "]]"
    case Pair(f) => FieldText(codec, f)
  }

  predicate PrintableLines(ls: seq<Line>) {
    forall l <- ls :: l.Pair? ==> Printable(l.field.value)
  }

  function LineTexts(codec: FloatCodec, ls: seq<Line>): (r: seq<string>)
    requires PrintableLines(ls)
    ensures |r| == |ls| && forall i :: 0 <= i < |r| ==> r[i] == LineText(codec, ls[i])
  {
    seq(|ls|, i requires 0 <= i < |ls| => LineText(codec, ls[i]))
  }

  function PairLines(fields: seq<Field>): seq<Line> {
    if fields == [] then []
    else PairLines(fields[..|fields| - 1])
         + if fields[|fields| - 1].value == VNull then [] else [Pair(fields[|fields| - 1])]
  }

  function RowLines(row: Row): seq<Line> {
    [Header(row.name)] + PairLines(row.fields) + [Blank]
  }

  function RowsLines(rows: seq<Row>): seq<Line> {
    if rows == [] then [] else RowsLines(rows[..|rows| - 1]) + RowLines(rows[|rows| - 1])
  }

  function DocumentLines(doc: Document): seq<Line> {
    PairLines(doc.top) + [Blank] + RowsLines(doc.rows)
  }

  predicate PrintableFields(fields: seq<Field>) {
    forall f <- fields :: f.value != VNull ==> Printable(f.value)
  }

  predicate PrintableRows(rows: seq<Row>) {
    forall row <- rows :: PrintableFields(row.fields)
  }

  lemma {:induction false} PairLinesPrintable(fields: seq<Field>)
    requires PrintableFields(fields)
    ensures PrintableLines(PairLines(fields))
  {
    if fields != [] {
      assert fields[|fields| - 1] in fields;
      PairLinesPrintable(fields[..|fields| - 1]);
    }
  }

  lemma {:induction false} RowsLinesPrintable(rows: seq<Row>)
    requires PrintableRows(rows)
    ensures PrintableLines(RowsLines(rows))
  {
    if rows != [] {
      assert rows[|rows| - 1] in rows;
      PairLinesPrintable(rows[|rows| - 1].fields);
      RowsLinesPrintable(rows[..|rows| - 1]);
    }
  }

  lemma PairLinesStep(codec: FloatCodec, fields: seq<Field>, i: nat)
    requires PrintableFields(fields) && i < |fields| && PrintableLines(PairLines(fields[..i]))
    ensures PrintableLines(PairLines(fields[..i + 1]))
    ensures fields[i].value != VNull ==> Printable(fields[i].value)
    ensures LineTexts(codec, PairLines(fields[..i + 1])) ==
            LineTexts(codec, PairLines(fields[..i]))
            + if fields[i].value == VNull then [] else [FieldText(codec, fields[i])]
  {
    PrefixStep(fields, i);
    var f, before := fields[i], PairLines(fields[..i]);
    assert f in fields;
    hide LineTexts, Printable, PrintableLines;
    if f.value == VNull {
      assert PairLines(fields[..i + 1]) == before;
    }
  }

  method AppendPairs(codec: FloatCodec, lines: seq<string>, fields: seq<Field>) returns (r: seq<string>)
    requires PrintableFields(fields)
    ensures PrintableLines(PairLines(fields)) && r == lines + LineTexts(codec, PairLines(fields))
  {
    hide *;
    r := lines;
    NoLines(codec);
    for i := 0 to |fields|
      invariant PrintableLines(PairLines(fields[..i])) && r == lines + LineTexts(codec, PairLines(fields[..i]))
    {
      PairLinesStep(codec, fields, i);
      if fields[i].value == VNull {
        continue;
      }
      r := r + [FieldText(codec, fields[i])];
    }
    assert fields[..|fields|] == fields;
  }

  lemma NoLines(codec: FloatCodec)
    ensures PrintableLines(PairLines([])) && LineTexts(codec, PairLines([])) == []
    ensures PrintableLines(RowsLines([])) && LineTexts(codec, RowsLines([])) == []
  {
  }

  lemma RowTexts(codec: FloatCodec, row: Row)
    requires PrintableFields(row.fields)
    ensures PrintableLines(PairLines(row.fields)) && PrintableLines(RowLines(row))
    ensures LineTexts(codec, RowLines(row)) == ["[[" + row.name + "]]"] + LineTexts(codec, PairLines(row.fields)) + [""]
  {
    PairLinesPrintable(row.fields);
    hide PrintableLines, PrintableFields, PairLines, LineTexts;
  }

  lemma RowsStep(codec: FloatCodec, rows: seq<Row>, i: nat)
    requires PrintableRows(rows) && i < |rows| && PrintableLines(RowsLines(rows[..i]))
    ensures PrintableFields(rows[i].fields)
    ensures PrintableLines(RowsLines(rows[..i + 1])) && PrintableLines(RowLines(rows[i]))
    ensures LineTexts(codec, RowsLines(rows[..i + 1])) ==
            LineTexts(codec, RowsLines(rows[..i])) + LineTexts(codec, RowLines(rows[i]))
  {
    PrefixStep(rows, i);
    assert rows[i] in rows;
    hide PrintableLines, PrintableFields, LineTexts, RowLines;
    RowTexts(codec, rows[i]);
  }

  /** Appends the lines of the tables of an array. */
  method AppendTableArray(codec: FloatCodec, lines: seq<string>, rows: seq<Row>) returns (r: seq<string>)
    requires PrintableRows(rows)
    ensures PrintableLines(RowsLines(rows)) && r == lines + LineTexts(codec, RowsLines(rows))
  {
    hide *;
    NoLines(codec);
    r := lines;
    for i := 0 to |rows|
      invariant PrintableLines(RowsLines(rows[..i])) && r == lines + LineTexts(codec, RowsLines(rows[..i]))
    {
      RowsStep(codec, rows, i);
      RowTexts(codec, rows[i]);
      ghost var before := r;
      r := AppendPairs(codec, r + ["[[" + rows[i].name + "]]"], rows[i].fields);
      r := r + [""];
      assert r == before + LineTexts(codec, RowLines(rows[i]));
    }
    assert rows[..|rows|] == rows;
  }

  // ----------------------------------------------------------------------- reader

  /** The text after the end of the line, if nothing but blanks comes before it. */
  function EndOfLine(s: string): (r: Option<string>)
    ensures r.Some? ==> |r.value| <= |s|
  {
    var t := SkipBlanks(s);
    if t == "" then Some("")
    else if t[0] == '\n' then Some(t[1..])
    else if "\r\n" <= t then Some(t[2..])
    else None
  }

  function ReadHeader(s: string): (r: Option<(string, string)>)
    ensures r.Some? ==> |r.value.1| <= |s|
  {
    var (name, rest) := TakeBare(s);
    if name == "" || !("]]" <= rest) then None else Some((name, rest[2..]))
  }

  /** The lines of a document, blank ones left out. */
  function ReadLines(codec: FloatCodec, s: string): Option<seq<Line>>
    decreases |s|
  {
    var t := SkipBlanks(s);
    if t == "" then Some([])
    else if t[0] == '\n' then ReadLines(codec, t[1..])
    else if "\r\n" <= t then ReadLines(codec, t[2..])
    else if "[[" <= t then
      var header := ReadHeader(t[2..]);
      if header.None? || EndOfLine(header.value.1).None? then None
      else FirstLine(Header(header.value.0), ReadLines(codec, EndOfLine(header.value.1).value))
    else
      var field := ReadField(codec, t);
      if field.None? || EndOfLine(field.value.1).None? then None
      else FirstLine(Pair(field.value.0), ReadLines(codec, EndOfLine(field.value.1).value))
  }

  function FirstLine(l: Line, r: Option<seq<Line>>): Option<seq<Line>> {
    if r.None? then None else Some([l] + r.value)
  }

  function AddField(fields: seq<Field>, f: Field): Option<seq<Field>> {
    if HasKey(fields, f.key) then None else Some(fields + [f])
  }

  /** A header opens a new table at the end of its array; a key line belongs to the last table
      opened, or to the top before any.  Defining a key twice is an error. */
  function AddLine(doc: Document, l: Line): Option<Document> {
    match l
    case Blank => Some(doc)
    case Header(name) => if HasKey(doc.top, name) then None else Some(doc.(rows := doc.rows + [Row(name, [])]))
    case Pair(f) =>
      if doc.rows == [] then
        var top := AddField(doc.top, f);
        if top.None? then None else Some(doc.(top := top.value))
      else
        var n := |doc.rows| - 1;
        var fields := AddField(doc.rows[n].fields, f);
        if fields.None? then None else Some(doc.(rows := doc.rows[..n] + [Row(doc.rows[n].name, fields.value)]))
  }

  function Assemble(ls: seq<Line>): Option<Document> {
    if ls == [] then Some(Document([], []))
    else
      var doc := Assemble(ls[..|ls| - 1]);
      if doc.None? then None else AddLine(doc.value, ls[|ls| - 1])
  }

  function Tables(rows: seq<Row>, name: string): seq<Value> {
    if rows == [] then []
    else Tables(rows[..|rows| - 1], name) + if rows[|rows| - 1].name == name then [VDict(rows[|rows| - 1].fields)] else []
  }

  function RowNames(rows: seq<Row>): (r: seq<string>)
    ensures |r| == |rows| && forall i :: 0 <= i < |r| ==> r[i] == rows[i].name
  {
    seq(|rows|, i requires 0 <= i < |rows| => rows[i].name)
  }

  function ArraysOf(rows: seq<Row>, names: seq<string>): (r: seq<Field>)
    ensures |r| == |names| && forall i :: 0 <= i < |r| ==> r[i] == Field(names[i], VList(Tables(rows, names[i])))
  {
    seq(|names|, i requires 0 <= i < |names| => Field(names[i], VList(Tables(rows, names[i]))))
  }

  /** The document as one table: each array of tables under its name. */
  function AsFields(doc: Document): seq<Field> {
    doc.top + ArraysOf(doc.rows, Unique(RowNames(doc.rows)))
  }

  function ReadDocument(codec: FloatCodec, s: string): Option<seq<Field>> {
    var lines := ReadLines(codec, s);
    if lines.None? || Assemble(lines.value).None? then None else Some(AsFields(Assemble(lines.value).value))
  }
}
