/** Reading back what the printer wrote gives the same value, exactly when its strings hold no
    control characters. */
module TomlRoundTrip {
  import opened Domain
  import opened Toml

  // ---------------------------------------------------------------------- strings

  function EscapeChar(c: char): string {
    if c == '\\' then "\\\\" else if c == '"' then "\\\"" else [c]
  }

  /** Escaping character by character. */
  function Escaped(s: string): string {
    if s == "" then "" else EscapeChar(s[0]) + Escaped(s[1..])
  }

  lemma {:induction false} ReplaceOfSum(a: string, b: string, c: char, text: string)
    ensures Replace(a + b, c, text) == Replace(a, c, text) + Replace(b, c, text)
  {
    if a == "" {
      assert a + b == b;
    } else {
      assert (a + b)[1..] == a[1..] + b;
      ReplaceOfSum(a[1..], b, c, text);
    }
  }

  /** The printer's two replacement passes, one after the other, escape each character once. */
  lemma {:induction false} TwoPassesEscape(s: string)
    ensures Replace(Replace(s, '\\', "\\\\"), '"', "\\\"") == Escaped(s)
  {
    if s != "" {
      TwoPassesEscape(s[1..]);
      ReplaceOfSum(if s[0] == '\\' then "\\\\" else [s[0]], Replace(s[1..], '\\', "\\\\"), '"', "\\\"");
    }
  }

  /** Reading one escaped character. */
  lemma ReadEscapedChar(c: char, tail: string)
    ensures ReadString(EscapeChar(c) + tail) == if IsControl(c) then None else Before(c, ReadString(tail))
  {
    var text := EscapeChar(c) + tail;
    assert !IsControl('\\') && !IsControl('"');
    if c == '\\' || c == '"' {
      assert text[0] == '\\' && text[1] == c && text[2..] == tail && EscapeOf(c) == Some(c);
    } else {
      assert text[0] == c && text[1..] == tail;
    }
  }

  lemma {:induction false} ReadEscaped(s: string, rest: string)
    ensures ReadString(Escaped(s) + "\"" + rest) == if Plain(s) then Some((s, rest)) else None
  {
    if s == "" {
      assert Escaped(s) + "\"" + rest == "\"" + rest && ("\"" + rest)[1..] == rest;
    } else {
      var tail := Escaped(s[1..]) + "\"" + rest;
      ReadEscaped(s[1..], rest);
      assert s == [s[0]] + s[1..];
      assert Escaped(s) + "\"" + rest == EscapeChar(s[0]) + tail;
      ReadEscapedChar(s[0], tail);
      hide ReadString, EscapeChar, Escaped;
      assert Plain(s) <==> !IsControl(s[0]) && Plain(s[1..]);
    }
  }

  // ---------------------------------------------------------------------- scalars

  ghost predicate Delimited(rest: string) {
    rest == "" || !IsTokenChar(rest[0])
  }

  lemma {:induction false} TokenTaken(token: string, rest: string)
    requires (forall c <- token :: IsTokenChar(c)) && Delimited(rest)
    ensures TakeToken(token + rest) == (token, rest)
  {
    if token == "" {
      assert token + rest == rest;
    } else {
      assert (token + rest)[1..] == token[1..] + rest && token == [token[0]] + token[1..];
      TokenTaken(token[1..], rest);
    }
  }

  lemma {:induction false} BareTaken(key: string, rest: string)
    requires (forall c <- key :: IsBareChar(c)) && (rest == "" || !IsBareChar(rest[0]))
    ensures TakeBare(key + rest) == (key, rest)
  {
    if key == "" {
      assert key + rest == rest;
    } else {
      assert (key + rest)[1..] == key[1..] + rest && key == [key[0]] + key[1..];
      BareTaken(key[1..], rest);
    }
  }

  lemma {:induction false} DecimalReads(n: nat)
    ensures Decimal(n) != "" && DigitsValue(Decimal(n)) == Some(n)
    ensures forall c <- Decimal(n) :: '0' <= c <= '9'
    ensures n > 0 ==> Decimal(n)[0] != '0'
    ensures n < 10 ==> |Decimal(n)| == 1
  {
    var digit := '0' + (n % 10) as char;
    if n >= 10 {
      DecimalReads(n / 10);
      var front := Decimal(n / 10);
      assert Decimal(n) == front + [digit] && (front + [digit])[..|front|] == front;
    }
  }

  lemma IntReads(n: int)
    ensures IntValue(IntText(n)) == Some(n)
    ensures IntText(n) != "" && forall c <- IntText(n) :: IsTokenChar(c)
    ensures IntText(n) !in {"true", "false"}
  {
    var m: nat := if n < 0 then -n else n;
    var digits := Decimal(m);
    DecimalReads(m);
    hide Decimal, DigitsValue;
    assert digits[0] in digits && '0' <= digits[0] <= '9';
    var text := IntText(n);
    if n < 0 {
      assert text == "-" + digits && text[0] == '-' && text[1..] == digits;
      assert forall c <- text :: c == '-' || c in digits;
    } else {
      assert text == digits;
    }
    assert text[0] != 't' && text[0] != 'f';
    assert "true"[0] == 't' && "false"[0] == 'f';
  }

  /** A value the reader reaches through a token. */
  predicate Scalar(v: Value) {
    v.VBool? || v.VInt? || v.VFloat?
  }

  lemma ScalarText(codec: FloatCodec, v: Value)
    requires Scalar(v) && Regular(codec, v)
    ensures ScalarOf(codec, Print(codec, v)) == Some(v)
    ensures Print(codec, v) != "" && forall c <- Print(codec, v) :: IsTokenChar(c)
  {
    if v.VInt? {
      IntReads(v.number);
    }
  }

  lemma ReadScalar(codec: FloatCodec, v: Value, rest: string)
    requires Scalar(v) && Regular(codec, v) && Delimited(rest)
    ensures ReadValue(codec, Print(codec, v) + rest) == Some((v, rest))
  {
    ScalarText(codec, v);
    hide ScalarOf, Regular, Print;
    var token := Print(codec, v);
    TokenTaken(token, rest);
    assert (token + rest)[0] == token[0] && token[0] in token;
  }

  lemma ReadText(codec: FloatCodec, s: string, rest: string)
    ensures ReadValue(codec, Print(codec, VStr(s)) + rest) == if Plain(s) then Some((VStr(s), rest)) else None
  {
    TwoPassesEscape(s);
    ReadEscaped(s, rest);
    hide Replace, Escaped, ReadString;
    var body := Escaped(s);
    assert Print(codec, VStr(s)) + rest == "\"" + (body + "\"" + rest);
    assert ("\"" + (body + "\"" + rest))[1..] == body + "\"" + rest;
  }

  // -------------------------------------------------------------- lists and tables

  lemma NothingToSkip(s: string)
    requires s != "" && !IsBlankChar(s[0]) && s[0] !in {'\n', '\r'}
    ensures SkipSpace(s) == s && SkipBlanks(s) == s
  {
  }

  /** The first character of a printed value. */
  lemma PrintStarts(codec: FloatCodec, v: Value)
    requires Printable(v) && Regular(codec, v)
    ensures var text := Print(codec, v);
      text != "" && (text[0] in {'"', '[', '{'} || IsTokenChar(text[0]))
  {
    if Scalar(v) {
      ScalarText(codec, v);
    }
  }

  ghost predicate CleanItems(items: seq<Value>) {
    forall i :: 0 <= i < |items| ==> Clean(items[i])
  }

  ghost predicate FitItems(codec: FloatCodec, items: seq<Value>) {
    forall i :: 0 <= i < |items| ==> Printable(items[i]) && Regular(codec, items[i])
  }

  ghost predicate CleanFields(fields: seq<Field>) {
    forall i :: 0 <= i < |fields| ==> Clean(fields[i].value)
  }

  ghost predicate FitFields(codec: FloatCodec, fields: seq<Field>) {
    && DistinctKeys(fields)
    && forall i :: 0 <= i < |fields| ==>
         && IsBare(fields[i].key) && Regular(codec, fields[i].value)
         && (fields[i].value != VNull ==> Printable(fields[i].value))
  }

  // One step of the reader, whatever text follows.

  lemma ReadOneItem(codec: FloatCodec, text: string)
    requires text != "" && !IsBlankChar(text[0]) && text[0] !in {'\n', '\r', ']'}
    ensures ReadValue(codec, text).None? ==> ReadItems(codec, text) == None
    ensures ReadValue(codec, text).Some? ==>
      var (item, tail) := ReadValue(codec, text).value;
      && ("]" <= tail ==> ReadItems(codec, text) == Some(([item], tail[1..])))
      && (", " <= tail ==>
            ReadItems(codec, text) == FirstItem(item, ReadItems(codec, tail[2..])))
  {
    NothingToSkip(text);
    hide ReadValue;
    if ReadValue(codec, text).Some? {
      var (item, tail) := ReadValue(codec, text).value;
      if "]" <= tail || ", " <= tail {
        NothingToSkip(tail);
      }
      if ", " <= tail {
        assert tail[1..] == " " + tail[2..];
        AfterComma(codec, tail[2..]);
      }
    }
  }

  lemma ReadOneField(codec: FloatCodec, text: string, first: bool)
    requires text != "" && !IsBlankChar(text[0]) && text[0] !in {'\n', '\r', '}'}
    ensures ReadField(codec, text).None? ==> ReadFields(codec, text, first) == None
    ensures ReadField(codec, text).Some? ==>
      var (f, tail) := ReadField(codec, text).value;
      && (" }" <= tail ==> ReadFields(codec, text, first) == Some(([f], tail[2..])))
      && (", " <= tail ==>
            ReadFields(codec, text, first) == FirstField(f, ReadFields(codec, tail[2..], false)))
  {
    NothingToSkip(text);
    hide ReadField;
    if ReadField(codec, text).Some? {
      var (f, tail) := ReadField(codec, text).value;
      if " }" <= tail {
        assert tail == " " + tail[1..] && tail[1..][1..] == tail[2..];
        NothingToSkip(tail[1..]);
      }
      if ", " <= tail {
        NothingToSkip(tail);
        assert tail[1..] == " " + tail[2..];
        AfterComma(codec, tail[2..]);
      }
    }
  }

  lemma AfterComma(codec: FloatCodec, after: string)
    ensures ReadItems(codec, " " + after) == ReadItems(codec, after)
    ensures forall first :: ReadFields(codec, " " + after, first) == ReadFields(codec, after, first)
  {
  }

  // The texts of a nonempty list, and of a table with a nonempty first entry.

  function ListTail(more: seq<string>, end: string): string {
    (if more == [] then "" else ", " + Join(more, ", ")) + end
  }

  lemma JoinedText(first: string, more: seq<string>, end: string)
    ensures Join([first] + more, ", ") + end == first + ListTail(more, end)
    ensures more == [] ==> ListTail(more, end) == end
    ensures more != [] ==>
      var tail := ListTail(more, end);
      ", " <= tail && tail[2..] == Join(more, ", ") + end
  {
  }

  /** Reading back a printed value: the value itself without its null entries, or, when some
      string holds a control character, an error. */
  lemma {:induction false} ReadPrinted(codec: FloatCodec, v: Value, rest: string)
    requires Printable(v) && Regular(codec, v) && Delimited(rest)
    ensures ReadValue(codec, Print(codec, v) + rest) == if Clean(v) then Some((Stripped(v), rest)) else None
    decreases v, 1
  {
    match v
    case VStr(s) => ReadText(codec, s, rest);
    case VList(items) =>
      ReadPrintedItems(codec, items, "]" + rest, rest);
      ReadBracket(codec, items, rest);
    case VDict(fields) =>
      ReadPrintedFields(codec, fields, rest, true);
      ReadBrace(codec, fields, rest);
    case _ => ReadScalar(codec, v, rest);
  }

  lemma ReadBracket(codec: FloatCodec, items: seq<Value>, rest: string)
    requires Printable(VList(items))
    ensures ReadValue(codec, Print(codec, VList(items)) + rest) ==
            AsList(ReadItems(codec, Join(ItemTexts(codec, items), ", ") + ("]" + rest)))
  {
    hide ReadItems, ItemTexts, Join;
    var body := Join(ItemTexts(codec, items), ", ") + ("]" + rest);
    assert Print(codec, VList(items)) + rest == "[" + body && ("[" + body)[1..] == body;
  }

  lemma ReadBrace(codec: FloatCodec, fields: seq<Field>, rest: string)
    requires Printable(VDict(fields))
    ensures ReadValue(codec, Print(codec, VDict(fields)) + rest) ==
            AsTable(ReadFields(codec, Join(FieldTexts(codec, fields), ", ") + (" }" + rest), true))
  {
    hide ReadFields, FieldTexts, Join;
    var body := Join(FieldTexts(codec, fields), ", ") + (" }" + rest);
    assert Print(codec, VDict(fields)) + rest == "{" + (" " + body) && ("{" + (" " + body))[1..] == " " + body;
    AfterComma(codec, body);
  }

  lemma {:induction false} ReadPrintedItems(codec: FloatCodec, items: seq<Value>, end: string, rest: string)
    requires FitItems(codec, items) && end == "]" + rest
    ensures ReadItems(codec, Join(ItemTexts(codec, items), ", ") + end) ==
            if CleanItems(items) then Some((StrippedItems(items), rest)) else None
    decreases items, 0
  {
    if items == [] {
      assert Join(ItemTexts(codec, items), ", ") + end == end && end[1..] == rest;
    } else {
      var text, more := Print(codec, items[0]), ItemTexts(codec, items[1..]);
      var tail := ListTail(more, end);
      JoinedText(text, more, end);
      assert Delimited(tail) && end[1..] == rest;
      ReadPrinted(codec, items[0], tail);
      ReadPrintedItems(codec, items[1..], end, rest);
      PrintStarts(codec, items[0]);
      hide *;
      CleanItemsStep(items);
      StrippedItemsStep(items);
      StartsItem(text[0]);
      assert (text + tail)[0] == text[0];
      ReadOneItem(codec, text + tail);
    }
  }

  lemma CleanItemsStep(items: seq<Value>)
    requires items != []
    ensures CleanItems(items) <==> Clean(items[0]) && CleanItems(items[1..])
  {
    assert items == [items[0]] + items[1..];
    hide Clean;
  }

  lemma StrippedItemsStep(items: seq<Value>)
    requires items != []
    ensures StrippedItems(items) == [Stripped(items[0])] + StrippedItems(items[1..])
    ensures items[1..] == [] ==> CleanItems(items[1..]) && StrippedItems(items) == [Stripped(items[0])]
  {
    hide Stripped;
  }

  lemma StartsItem(c: char)
    requires c in {'"', '[', '{'} || IsTokenChar(c)
    ensures !IsBlankChar(c) && c !in {'\n', '\r', ']'}
  {
  }

  lemma {:induction false} ReadPrintedField(codec: FloatCodec, f: Field, rest: string)
    requires IsBare(f.key) && Printable(f.value) && Regular(codec, f.value) && Delimited(rest)
    ensures ReadField(codec, FieldText(codec, f) + rest) ==
            if Clean(f.value) then Some((Field(f.key, Stripped(f.value)), rest)) else None
    decreases f, 2
  {
    var text := Print(codec, f.value) + rest;
    ReadPrinted(codec, f.value, rest);
    PrintStarts(codec, f.value);
    StartsItem(text[0]);
    assert FieldText(codec, f) + rest == f.key + (" " + ("= " + text));
    hide Print, FieldText, ReadValue, Regular, Printable, Clean, Stripped;
    ReadKeyAndEquals(codec, f.key, text);
  }

  lemma ReadKeyAndEquals(codec: FloatCodec, key: string, text: string)
    requires IsBare(key) && text != "" && !IsBlankChar(text[0]) && text[0] !in {'\n', '\r'}
    ensures ReadField(codec, key + (" " + ("= " + text))) ==
            AsField(key, ReadValue(codec, text))
  {
    hide ReadValue;
    BareTaken(key, " " + ("= " + text));
    NothingToSkip("= " + text);
    assert ("= " + text)[1..] == " " + text;
    NothingToSkip(text);
  }

  lemma {:induction false} StrippedKeys(fields: seq<Field>, key: string)
    requires forall f <- fields :: f.key != key
    ensures !HasKey(StrippedFields(fields), key)
  {
    hide Stripped;
    if fields != [] {
      assert fields == [fields[0]] + fields[1..];
      StrippedKeys(fields[1..], key);
    }
  }

  lemma {:induction false} NoTextsNoFields(codec: FloatCodec, fields: seq<Field>)
    requires FitFields(codec, fields)
    ensures FieldTexts(codec, fields) == [] <==> StrippedFields(fields) == []
    ensures FieldTexts(codec, fields) == [] ==> CleanFields(fields)
  {
    hide Stripped, FieldText, Regular, Printable;
    if fields != [] {
      NoTextsNoFields(codec, fields[1..]);
    }
  }

  lemma {:induction false} ReadPrintedFields(codec: FloatCodec, fields: seq<Field>, rest: string, first: bool)
    requires FitFields(codec, fields) && (first || FieldTexts(codec, fields) != [])
    ensures ReadFields(codec, Join(FieldTexts(codec, fields), ", ") + (" }" + rest), first) ==
            if CleanFields(fields) then Some((StrippedFields(fields), rest)) else None
    decreases fields, 0
  {
    if fields == [] {
      assert Join(FieldTexts(codec, fields), ", ") + (" }" + rest) == " " + ("}" + rest) && ("}" + rest)[1..] == rest;
      NothingToSkip("}" + rest);
    } else if fields[0].value == VNull {
      ReadPrintedFields(codec, fields[1..], rest, first);
      hide *;
      NullFirst(codec, fields);
    } else {
      var text, more := FieldText(codec, fields[0]), FieldTexts(codec, fields[1..]);
      var tail := ListTail(more, " }" + rest);
      JoinedText(text, more, " }" + rest);
      assert Delimited(tail) && (" }" + rest)[2..] == rest;
      ReadPrintedField(codec, fields[0], tail);
      if more != [] {
        ReadPrintedFields(codec, fields[1..], rest, false);
      }
      assert text[0] == fields[0].key[0] && IsBareChar(text[0]) && (text + tail)[0] == text[0];
      StrippedKeys(fields[1..], fields[0].key);
      NoTextsNoFields(codec, fields[1..]);
      hide *;
      StartsItem(text[0]);
      ReadOneField(codec, text + tail, first);
      ValueFirst(codec, fields);
    }
  }

  lemma NullFirst(codec: FloatCodec, fields: seq<Field>)
    requires FitFields(codec, fields) && fields != [] && fields[0].value == VNull
    ensures FieldTexts(codec, fields) == FieldTexts(codec, fields[1..])
    ensures StrippedFields(fields) == StrippedFields(fields[1..])
    ensures CleanFields(fields) <==> CleanFields(fields[1..])
  {
    assert fields == [fields[0]] + fields[1..];
  }

  lemma ValueFirst(codec: FloatCodec, fields: seq<Field>)
    requires FitFields(codec, fields) && fields != [] && fields[0].value != VNull
    ensures FieldTexts(codec, fields) == [FieldText(codec, fields[0])] + FieldTexts(codec, fields[1..])
    ensures StrippedFields(fields) == [Field(fields[0].key, Stripped(fields[0].value))] + StrippedFields(fields[1..])
    ensures StrippedFields(fields[1..]) == [] ==>
      StrippedFields(fields) == [Field(fields[0].key, Stripped(fields[0].value))]
    ensures CleanFields(fields) <==> Clean(fields[0].value) && CleanFields(fields[1..])
  {
    assert fields == [fields[0]] + fields[1..];
    hide Stripped, Clean, FieldText;
  }

  /** The whole text of one value. */
  function Parse(codec: FloatCodec, text: string): Option<Value> {
    match ReadValue(codec, text)
    case Some((v, "")) => Some(v)
    case _ => None
  }

  /** Round trip, exactly: a printed value reads back as itself (null entries absent) if and only
      if none of its strings holds a control character. */
  lemma RoundTripIffClean(codec: FloatCodec, v: Value)
    requires Printable(v) && Regular(codec, v)
    ensures Parse(codec, Print(codec, v)) == Some(Stripped(v)) <==> Clean(v)
  {
    ReadPrinted(codec, v, "");
    hide Print, ReadValue, Regular, Printable, Clean, Stripped;
    assert Print(codec, v) + "" == Print(codec, v);
  }
}
