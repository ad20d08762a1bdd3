/** A scenario file reads back as the document that was written, exactly when none of its strings
    holds a control character. */
module TomlFiles {
  import opened Domain
  import opened Requests
  import opened Toml
  import opened TomlRoundTrip
  import opened TomlDocument

  // ------------------------------------------------------------ lines and their text

  /** The text of lines, each with its line break. */
  function LinesText(codec: FloatCodec, ls: seq<Line>): string
    requires PrintableLines(ls)
  {
    if ls == [] then ""
    else
      assert ls == [ls[0]] + ls[1..];
      LineText(codec, ls[0]) + ("\n" + LinesText(codec, ls[1..]))
  }

  /** Bare names and regular values. */
  ghost predicate RegularLine(codec: FloatCodec, l: Line) {
    match l
    case Blank => true
    case Header(name) => IsBare(name)
    case Pair(f) => IsBare(f.key) && Printable(f.value) && Regular(codec, f.value)
  }

  ghost predicate RegularLines(codec: FloatCodec, ls: seq<Line>) {
    forall l <- ls :: RegularLine(codec, l)
  }

  predicate CleanLine(l: Line) {
    l.Pair? ==> Clean(l.field.value)
  }

  ghost predicate CleanLines(ls: seq<Line>) {
    forall l <- ls :: CleanLine(l)
  }

  function StrippedField(f: Field): Field {
    Field(f.key, Stripped(f.value))
  }

  /** What the reader makes of lines: blank ones are gone, values are without nulls. */
  function Kept(ls: seq<Line>): seq<Line> {
    if ls == [] then []
    else
      match ls[0]
      case Blank => Kept(ls[1..])
      case Header(name) => [Header(name)] + Kept(ls[1..])
      case Pair(f) => [Pair(StrippedField(f))] + Kept(ls[1..])
  }

  lemma ReadBlankLine(codec: FloatCodec, rest: string)
    ensures ReadLines(codec, "\n" + rest) == ReadLines(codec, rest)
  {
    assert ("\n" + rest)[1..] == rest;
  }

  lemma ReadHeaderLine(codec: FloatCodec, name: string, rest: string)
    requires IsBare(name)
    ensures ReadLines(codec, "[[" + name + "]]" + ("\n" + rest)) == FirstLine(Header(name), ReadLines(codec, rest))
  {
    var text := "[[" + name + "]]" + ("\n" + rest);
    var after := name + ("]]" + ("\n" + rest));
    assert text == "[[" + after && text[2..] == after;
    BareTaken(name, "]]" + ("\n" + rest));
    assert ("]]" + ("\n" + rest))[2..] == "\n" + rest;
    assert ReadHeader(text[2..]) == Some((name, "\n" + rest));
  }

  lemma ReadPairLine(codec: FloatCodec, text: string, f: Option<Field>, rest: string)
    requires text != "" && IsBareChar(text[0])
    requires ReadField(codec, text) == if f.None? then None else Some((f.value, "\n" + rest))
    ensures ReadLines(codec, text) == if f.None? then None else FirstLine(Pair(f.value), ReadLines(codec, rest))
  {
    hide ReadField;
  }

  /** Reading back printed lines. */
  lemma {:induction false} ReadPrintedLines(codec: FloatCodec, ls: seq<Line>)
    requires RegularLines(codec, ls) && PrintableLines(ls)
    ensures ReadLines(codec, LinesText(codec, ls)) == if CleanLines(ls) then Some(Kept(ls)) else None
  {
    if ls != [] {
      var more := ls[1..];
      assert ls == [ls[0]] + more;
      ReadPrintedLines(codec, more);
      var rest := LinesText(codec, more);
      var text := LineText(codec, ls[0]) + ("\n" + rest);
      assert LinesText(codec, ls) == text;
      assert CleanLines(ls) <==> CleanLine(ls[0]) && CleanLines(more);
      assert RegularLine(codec, ls[0]);
      match ls[0]
      case Blank =>
        assert text == "\n" + rest;
        hide *;
        ReadBlankLine(codec, rest);
      case Header(name) =>
        hide *;
        ReadHeaderLine(codec, name, rest);
      case Pair(f) =>
        ReadPrintedField(codec, f, "\n" + rest);
        assert text[0] == f.key[0] && f.key[0] in f.key;
        hide *;
        ReadPairLine(codec, text, if Clean(f.value) then Some(StrippedField(f)) else None, rest);
    }
  }

  // ------------------------------------------------------------ assembling the tables

  function AddLines(doc: Option<Document>, ls: seq<Line>): Option<Document> {
    if ls == [] then doc
    else
      var before := AddLines(doc, ls[..|ls| - 1]);
      if before.None? then None else AddLine(before.value, ls[|ls| - 1])
  }

  lemma {:induction false} AssembleIsAddLines(ls: seq<Line>)
    ensures Assemble(ls) == AddLines(Some(Document([], [])), ls)
  {
    hide AddLine;
    if ls != [] {
      AssembleIsAddLines(ls[..|ls| - 1]);
    }
  }

  lemma {:induction false} AddLinesOfSum(doc: Option<Document>, a: seq<Line>, b: seq<Line>)
    ensures AddLines(doc, a + b) == AddLines(AddLines(doc, a), b)
    decreases |b|
  {
    hide AddLine;
    if b == [] {
      assert a + b == a;
    } else {
      assert (a + b)[..|a + b| - 1] == a + b[..|b| - 1];
      AddLinesOfSum(doc, a, b[..|b| - 1]);
    }
  }

  lemma {:induction false} KeptOfSum(a: seq<Line>, b: seq<Line>)
    ensures Kept(a + b) == Kept(a) + Kept(b)
  {
    hide StrippedField;
    if a == [] {
      assert a + b == b;
    } else {
      assert (a + b)[1..] == a[1..] + b;
      KeptOfSum(a[1..], b);
    }
  }

  function PairsOf(fields: seq<Field>): (r: seq<Line>)
    ensures |r| == |fields| && forall i :: 0 <= i < |r| ==> r[i] == Pair(fields[i])
  {
    seq(|fields|, i requires 0 <= i < |fields| => Pair(fields[i]))
  }

  lemma {:induction false} StrippedOfSum(a: seq<Field>, b: seq<Field>)
    ensures StrippedFields(a + b) == StrippedFields(a) + StrippedFields(b)
  {
    hide Stripped;
    if a == [] {
      assert a + b == b;
    } else {
      assert (a + b)[1..] == a[1..] + b;
      StrippedOfSum(a[1..], b);
    }
  }

  lemma {:induction false} KeptPairs(fields: seq<Field>)
    ensures Kept(PairLines(fields)) == PairsOf(StrippedFields(fields))
  {
    if fields != [] {
      var front, f := fields[..|fields| - 1], fields[|fields| - 1];
      assert fields == front + [f];
      KeptPairs(front);
      hide Stripped, Kept, StrippedFields;
      StrippedOfSum(front, [f]);
      if f.value == VNull {
        assert PairLines(fields) == PairLines(front) && StrippedFields(fields) == StrippedFields(front);
      } else {
        KeptOfSum(PairLines(front), [Pair(f)]);
        assert PairsOf(StrippedFields(front) + [StrippedField(f)]) == PairsOf(StrippedFields(front)) + [Pair(StrippedField(f))];
      }
    }
  }

  lemma {:induction false} AddTop(doc: Document, fields: seq<Field>)
    requires doc.rows == [] && DistinctKeys(doc.top + fields)
    ensures AddLines(Some(doc), PairsOf(fields)) == Some(doc.(top := doc.top + fields))
  {
    if fields != [] {
      var front, f := fields[..|fields| - 1], fields[|fields| - 1];
      assert doc.top + fields == (doc.top + front) + [f];
      NewKey(doc.top + front, f);
      AddTop(doc, front);
      assert PairsOf(fields) == PairsOf(front) + [Pair(f)];
      assert (PairsOf(front) + [Pair(f)])[..|front|] == PairsOf(front);
    } else {
      assert doc.top + fields == doc.top;
    }
  }

  lemma NewKey(fields: seq<Field>, f: Field)
    requires DistinctKeys(fields + [f])
    ensures !HasKey(fields, f.key) && DistinctKeys(fields)
  {
    var all := fields + [f];
    forall g | g in fields ensures g.key != f.key {
      var i :| 0 <= i < |fields| && fields[i] == g;
      assert all[i] == g && all[|fields|] == f;
    }
    assert forall i :: 0 <= i < |fields| ==> all[i] == fields[i];
  }

  lemma {:induction false} AddToRow(doc: Document, row: Row, fields: seq<Field>)
    requires DistinctKeys(row.fields + fields)
    ensures AddLines(Some(doc.(rows := doc.rows + [row])), PairsOf(fields)) ==
            Some(doc.(rows := doc.rows + [Row(row.name, row.fields + fields)]))
  {
    if fields != [] {
      var front, f := fields[..|fields| - 1], fields[|fields| - 1];
      assert row.fields + fields == (row.fields + front) + [f];
      NewKey(row.fields + front, f);
      AddToRow(doc, row, front);
      assert PairsOf(fields) == PairsOf(front) + [Pair(f)];
      assert (PairsOf(front) + [Pair(f)])[..|front|] == PairsOf(front);
      var rows := doc.rows + [Row(row.name, row.fields + front)];
      assert rows[..|rows| - 1] == doc.rows;
    } else {
      assert row.fields + fields == row.fields;
    }
  }

  function StrippedRow(row: Row): Row {
    Row(row.name, StrippedFields(row.fields))
  }

  function StrippedRows(rows: seq<Row>): (r: seq<Row>)
    ensures |r| == |rows| && forall i :: 0 <= i < |r| ==> r[i] == StrippedRow(rows[i])
  {
    seq(|rows|, i requires 0 <= i < |rows| => StrippedRow(rows[i]))
  }

  /** A document the printer is given: names and keys are bare, keys distinct, values regular, and
      no table is named like a key of the top. */
  ghost predicate RegularDocument(codec: FloatCodec, doc: Document) {
    && FitFields(codec, doc.top)
    && forall row <- doc.rows :: IsBare(row.name) && FitFields(codec, row.fields) && !HasKey(doc.top, row.name)
  }

  ghost predicate CleanDocument(doc: Document) {
    CleanFields(doc.top) && forall row <- doc.rows :: CleanFields(row.fields)
  }

  lemma {:induction false} StrippedKeysAt(fields: seq<Field>, g: Field)
    requires g in StrippedFields(fields)
    ensures exists f <- fields :: f.key == g.key
  {
    hide Stripped;
    if fields != [] {
      assert fields == [fields[0]] + fields[1..];
      if g in StrippedFields(fields[1..]) {
        StrippedKeysAt(fields[1..], g);
      }
    }
  }

  lemma {:induction false} StrippedKeysDistinct(fields: seq<Field>)
    requires DistinctKeys(fields)
    ensures DistinctKeys(StrippedFields(fields))
  {
    if fields != [] {
      var tail := StrippedFields(fields[1..]);
      StrippedKeysDistinct(fields[1..]);
      hide Stripped;
      assert fields == [fields[0]] + fields[1..];
      forall i | 0 <= i < |tail| ensures tail[i].key != fields[0].key {
        assert tail[i] in tail;
        StrippedKeysAt(fields[1..], tail[i]);
        var f :| f in fields[1..] && f.key == tail[i].key;
        var j :| 0 <= j < |fields[1..]| && fields[1..][j] == f;
        assert fields[j + 1] == f;
      }
    }
  }

  lemma {:induction false} AddRows(codec: FloatCodec, doc: Document, rows: seq<Row>)
    requires forall row <- rows :: FitFields(codec, row.fields) && !HasKey(doc.top, row.name)
    ensures AddLines(Some(doc), Kept(RowsLines(rows))) == Some(doc.(rows := doc.rows + StrippedRows(rows)))
  {
    if rows == [] {
      assert doc.rows + StrippedRows(rows) == doc.rows;
    } else {
      var front, row := rows[..|rows| - 1], rows[|rows| - 1];
      assert rows == front + [row];
      AddRows(codec, doc, front);
      var mid := doc.(rows := doc.rows + StrippedRows(front));
      AddOneRow(codec, mid, row);
      hide Kept, AddLines, FitFields, StrippedRow, HasKey;
      KeptOfSum(RowsLines(front), RowLines(row));
      AddLinesOfSum(Some(doc), Kept(RowsLines(front)), Kept(RowLines(row)));
      assert StrippedRows(rows) == StrippedRows(front) + [StrippedRow(row)];
      assert (doc.rows + StrippedRows(front)) + [StrippedRow(row)] == doc.rows + StrippedRows(rows);
    }
  }

  lemma AddOneRow(codec: FloatCodec, doc: Document, row: Row)
    requires FitFields(codec, row.fields) && !HasKey(doc.top, row.name)
    ensures AddLines(Some(doc), Kept(RowLines(row))) == Some(doc.(rows := doc.rows + [StrippedRow(row)]))
  {
    StrippedKeysDistinct(row.fields);
    hide FitFields;
    var begun := doc.(rows := doc.rows + [Row(row.name, [])]);
    KeptRow(row);
    assert [Header(row.name)][..0] == [] && AddLines(Some(doc), [Header(row.name)]) == Some(begun);
    AddLinesOfSum(Some(doc), [Header(row.name)], PairsOf(StrippedFields(row.fields)));
    assert [] + StrippedFields(row.fields) == StrippedFields(row.fields);
    AddToRow(doc, Row(row.name, []), StrippedFields(row.fields));
  }

  lemma KeptRow(row: Row)
    ensures Kept(RowLines(row)) == [Header(row.name)] + PairsOf(StrippedFields(row.fields))
  {
    KeptPairs(row.fields);
    KeptOfSum([Header(row.name)] + PairLines(row.fields), [Blank]);
    KeptOfSum([Header(row.name)], PairLines(row.fields));
    assert Kept([Blank]) == [] && Kept([Header(row.name)]) == [Header(row.name)];
  }

  /** The lines of a document assemble to the document, nulls left out. */
  lemma AssembleLines(codec: FloatCodec, doc: Document)
    requires RegularDocument(codec, doc)
    ensures Assemble(Kept(DocumentLines(doc))) == Some(Document(StrippedFields(doc.top), StrippedRows(doc.rows)))
  {
    var top := StrippedFields(doc.top);
    StrippedKeysDistinct(doc.top);
    forall row | row in doc.rows ensures !HasKey(top, row.name) {
      StrippedKeys(doc.top, row.name);
    }
    AddRows(codec, Document(top, []), doc.rows);
    hide FitFields, HasKey;
    KeptPairs(doc.top);
    KeptOfSum(PairLines(doc.top) + [Blank], RowsLines(doc.rows));
    KeptOfSum(PairLines(doc.top), [Blank]);
    assert Kept([Blank]) == [];
    AssembleIsAddLines(Kept(DocumentLines(doc)));
    hide Kept, AddLines, PairLines, RowsLines;
    AddLinesOfSum(Some(Document([], [])), PairsOf(top), Kept(RowsLines(doc.rows)));
    assert [] + top == top;
    AddTop(Document([], []), top);
    assert PairsOf(top) + [] == PairsOf(top);
    assert [] + StrippedRows(doc.rows) == StrippedRows(doc.rows);
  }

  // ------------------------------------------------------------------ the whole text

  function StripLeft(s: string): string {
    if s != "" && IsSpace(s[0]) then StripLeft(s[1..]) else s
  }

  function StripRight(s: string): string {
    if s != "" && IsSpace(s[|s| - 1]) then StripRight(s[..|s| - 1]) else s
  }

  function Strip(s: string): string {
    StripRight(StripLeft(s))
  }

  /** The file the serializer writes. */
  function DocumentText(codec: FloatCodec, doc: Document): string
    requires PrintableLines(DocumentLines(doc))
  {
    Strip(Join(LineTexts(codec, DocumentLines(doc)), "\n")) + "\n"
  }

  lemma {:induction false} LinesTextOfSum(codec: FloatCodec, a: seq<Line>, l: Line)
    requires PrintableLines(a + [l])
    ensures PrintableLines(a) && (l.Pair? ==> Printable(l.field.value))
    ensures LinesText(codec, a + [l]) == LinesText(codec, a) + LineText(codec, l) + "\n"
  {
    var all := a + [l];
    assert l in all && forall x <- a :: x in all;
    hide LineText, Printable;
    if a == [] {
      assert all == [l];
    } else {
      assert all[1..] == a[1..] + [l] && all[0] == a[0];
      assert forall x <- all[1..] :: x in all;
      LinesTextOfSum(codec, a[1..], l);
      var first, rest, last := LineText(codec, a[0]), LinesText(codec, a[1..]), LineText(codec, l);
      assert LinesText(codec, all) == first + ("\n" + (rest + last + "\n"));
      assert LinesText(codec, a) == first + ("\n" + rest);
      Regroup(first, rest, last);
    }
  }

  lemma Regroup(first: string, rest: string, last: string)
    ensures first + ("\n" + (rest + last + "\n")) == first + ("\n" + rest) + last + "\n"
  {
  }

  lemma JoinMore(first: string, rest: seq<string>, separator: string)
    requires rest != []
    ensures Join([first] + rest, separator) == first + (separator + Join(rest, separator))
  {
    assert ([first] + rest)[1..] == rest;
    assert first + (separator + Join(rest, separator)) == first + separator + Join(rest, separator);
  }

  lemma BlankIsPrintable(ls: seq<Line>)
    requires PrintableLines(ls)
    ensures PrintableLines(ls + [Blank])
  {
  }

  /** Joining with line breaks, when the last line is blank. */
  lemma {:induction false} JoinIsLinesText(codec: FloatCodec, ls: seq<Line>)
    requires PrintableLines(ls)
    ensures PrintableLines(ls + [Blank])
    ensures Join(LineTexts(codec, ls + [Blank]), "\n") == LinesText(codec, ls)
  {
    BlankIsPrintable(ls);
    if ls == [] {
      assert LineTexts(codec, [] + [Blank]) == [""];
    } else {
      var more := ls[1..] + [Blank];
      assert ls == [ls[0]] + ls[1..];
      assert PrintableLines(ls[1..]);
      hide LineText, Printable, PrintableLines;
      JoinIsLinesText(codec, ls[1..]);
      assert ls + [Blank] == [ls[0]] + more;
      assert LineTexts(codec, ls + [Blank]) == [LineText(codec, ls[0])] + LineTexts(codec, more);
      JoinMore(LineText(codec, ls[0]), LineTexts(codec, more), "\n");
      hide Join;
    }
  }

  lemma PrintEnds(codec: FloatCodec, v: Value)
    requires Printable(v) && Regular(codec, v)
    ensures var text := Print(codec, v);
      text != "" && !IsSpace(text[|text| - 1])
  {
    var text := Print(codec, v);
    if Scalar(v) {
      ScalarText(codec, v);
      assert text[|text| - 1] in text;
    }
  }

  lemma LineEndsSolid(codec: FloatCodec, l: Line)
    requires RegularLine(codec, l) && !l.Blank?
    ensures var text := LineText(codec, l);
      text != "" && !IsSpace(text[|text| - 1])
  {
    if l.Pair? {
      PrintEnds(codec, l.field.value);
      hide Print, Regular, Printable, IsSpace;
      var text := Print(codec, l.field.value);
      assert LineText(codec, l) == l.field.key + " = " + text;
    }
  }

  lemma StripEnds(s: string)
    requires s != "" && !IsSpace(s[0]) && !IsSpace(s[|s| - 1])
    ensures Strip(s + "\n") == s
  {
    var t := s + "\n";
    assert StripLeft(t) == t && t[..|t| - 1] == s && IsSpace('\n');
    assert StripRight(t) == StripRight(s) == s;
  }

  lemma {:induction false} PairLinesRegular(codec: FloatCodec, fields: seq<Field>)
    requires FitFields(codec, fields)
    ensures RegularLines(codec, PairLines(fields)) && PrintableLines(PairLines(fields))
    ensures CleanLines(PairLines(fields)) <==> CleanFields(fields)
    ensures PairLines(fields) == [] || PairLines(fields)[|PairLines(fields)| - 1].Pair?
  {
    if fields != [] {
      var front, f := fields[..|fields| - 1], fields[|fields| - 1];
      PairLinesRegular(codec, front);
      hide Regular, Printable, Clean;
      NullIsClean();
      assert CleanFields(fields) <==> CleanFields(front) && Clean(f.value);
      if f.value != VNull {
        OnePair(codec, f);
        assert PairLines(fields) == PairLines(front) + [Pair(f)];
      } else {
        assert PairLines(fields) == PairLines(front);
      }
    }
  }

  lemma OnePair(codec: FloatCodec, f: Field)
    requires IsBare(f.key) && Regular(codec, f.value) && Printable(f.value)
    ensures RegularLines(codec, [Pair(f)]) && PrintableLines([Pair(f)])
    ensures CleanLines([Pair(f)]) <==> Clean(f.value)
  {
    hide Regular, Printable, Clean;
    assert CleanLine([Pair(f)][0]) <==> Clean(f.value);
  }

  lemma NullIsClean()
    ensures Clean(VNull)
  {
  }

  lemma RowLinesRegular(codec: FloatCodec, row: Row)
    requires IsBare(row.name) && FitFields(codec, row.fields)
    ensures RegularLines(codec, [Header(row.name)] + PairLines(row.fields))
    ensures PrintableLines([Header(row.name)] + PairLines(row.fields))
    ensures CleanLines([Header(row.name)] + PairLines(row.fields)) <==> CleanFields(row.fields)
  {
    PairLinesRegular(codec, row.fields);
  }

  lemma {:induction false} RowsLinesRegular(codec: FloatCodec, rows: seq<Row>)
    requires forall row <- rows :: IsBare(row.name) && FitFields(codec, row.fields)
    ensures RegularLines(codec, RowsLines(rows)) && PrintableLines(RowsLines(rows))
    ensures CleanLines(RowsLines(rows)) <==> forall row <- rows :: CleanFields(row.fields)
  {
    if rows != [] {
      var front, row := rows[..|rows| - 1], rows[|rows| - 1];
      assert rows == front + [row];
      RowsLinesRegular(codec, front);
      hide FitFields, PairLines, CleanFields;
      RowLinesRegular(codec, row);
    }
  }

  /** All lines of a document but the last, which is blank. */
  function BodyLines(doc: Document): seq<Line> {
    if doc.rows == [] then PairLines(doc.top)
    else
      var n := |doc.rows| - 1;
      PairLines(doc.top) + [Blank] + RowsLines(doc.rows[..n]) + ([Header(doc.rows[n].name)] + PairLines(doc.rows[n].fields))
  }

  lemma BodyThenBlank(doc: Document)
    ensures DocumentLines(doc) == BodyLines(doc) + [Blank]
  {
  }

  lemma BodyRegular(codec: FloatCodec, doc: Document)
    requires RegularDocument(codec, doc)
    ensures RegularLines(codec, BodyLines(doc)) && PrintableLines(BodyLines(doc))
    ensures CleanLines(BodyLines(doc)) <==> CleanDocument(doc)
  {
    PairLinesRegular(codec, doc.top);
    if doc.rows != [] {
      var n := |doc.rows| - 1;
      var front, row := doc.rows[..n], doc.rows[n];
      assert doc.rows == front + [row];
      hide FitFields, PairLines, CleanFields, RowsLines, HasKey;
      RowsLinesRegular(codec, front);
      RowLinesRegular(codec, row);
    }
  }

  lemma {:induction false} FirstPair(fields: seq<Field>)
    requires fields != [] && fields[0].value != VNull
    ensures PairLines(fields) != [] && PairLines(fields)[0] == Pair(fields[0])
  {
    if |fields| > 1 {
      FirstPair(fields[..|fields| - 1]);
    }
  }

  lemma BodyShape(codec: FloatCodec, doc: Document)
    requires RegularDocument(codec, doc) && doc.top != [] && doc.top[0].value != VNull
    ensures var body := BodyLines(doc);
      body != [] && body[0] == Pair(doc.top[0]) && !body[|body| - 1].Blank?
  {
    FirstPair(doc.top);
    PairLinesRegular(codec, doc.top);
    if doc.rows != [] {
      assert doc.rows[|doc.rows| - 1] in doc.rows;
      PairLinesRegular(codec, doc.rows[|doc.rows| - 1].fields);
    }
    hide RegularDocument, RegularLines, PairLines, RowsLines, FitFields, CleanLines, CleanFields, PrintableLines;
  }

  /** The text of a document is the text of its lines. */
  lemma TextIsLines(codec: FloatCodec, doc: Document)
    requires RegularDocument(codec, doc) && doc.top != [] && doc.top[0].value != VNull
    ensures PrintableLines(BodyLines(doc)) && PrintableLines(DocumentLines(doc))
    ensures DocumentText(codec, doc) == LinesText(codec, BodyLines(doc))
  {
    var body := BodyLines(doc);
    BodyRegular(codec, doc);
    BodyThenBlank(doc);
    JoinIsLinesText(codec, body);
    BodyShape(codec, doc);
    TextStarts(codec, doc, body);
    hide RegularDocument, BodyLines, DocumentLines, LinesText, Strip, LineTexts;
    SolidText(codec, body);
  }

  lemma SolidText(codec: FloatCodec, body: seq<Line>)
    requires PrintableLines(body) && RegularLines(codec, body) && body != [] && !body[|body| - 1].Blank?
    requires |LinesText(codec, body)| >= 2 && !IsSpace(LinesText(codec, body)[0])
    ensures Strip(LinesText(codec, body)) + "\n" == LinesText(codec, body)
  {
    var front, last := body[..|body| - 1], body[|body| - 1];
    assert body == front + [last] && last in body;
    assert RegularLine(codec, last);
    hide RegularLines, RegularLine, LineText, IsSpace;
    LinesTextOfSum(codec, front, last);
    LineEndsSolid(codec, last);
    var text := LinesText(codec, front) + LineText(codec, last);
    hide LinesText;
    assert LinesText(codec, body) == text + "\n" && (text + "\n")[0] == text[0];
    StripEnds(text);
  }

  lemma TextStarts(codec: FloatCodec, doc: Document, body: seq<Line>)
    requires RegularDocument(codec, doc) && doc.top != [] && PrintableLines(body)
    requires body != [] && body[0] == Pair(doc.top[0])
    ensures |LinesText(codec, body)| >= 2 && !IsSpace(LinesText(codec, body)[0])
  {
    hide Print, Regular, Printable;
    var key := doc.top[0].key;
    assert key[0] in key;
    assert LineText(codec, body[0])[0] == key[0];
  }

  /** File round trip, exactly: a written document reads back as itself (nulls left out) if none
      of its strings holds a control character, and cannot be read at all otherwise. */
  lemma DocumentRoundTrip(codec: FloatCodec, doc: Document)
    requires RegularDocument(codec, doc) && doc.top != [] && doc.top[0].value != VNull
    ensures PrintableLines(DocumentLines(doc))
    ensures ReadDocument(codec, DocumentText(codec, doc)) ==
            if CleanDocument(doc) then Some(AsFields(Document(StrippedFields(doc.top), StrippedRows(doc.rows)))) else None
  {
    TextIsLines(codec, doc);
    BodyRegular(codec, doc);
    ReadPrintedLines(codec, BodyLines(doc));
    AssembleLines(codec, doc);
    KeptBody(doc);
    hide *;
  }

  lemma KeptBody(doc: Document)
    ensures Kept(DocumentLines(doc)) == Kept(BodyLines(doc))
  {
    BodyThenBlank(doc);
    KeptOfSum(BodyLines(doc), [Blank]);
    hide BodyLines, DocumentLines;
    assert Kept([Blank]) == [] && Kept(BodyLines(doc)) + [] == Kept(BodyLines(doc));
  }

}
