/** The scenario printer's value syntax and a reader for it, after the "String", "Array" and
    "Inline Table" sections of TOML v1.0.0. */
module Toml {
  import opened Domain

  datatype Value =
    | VNull
    | VBool(flag: bool)
    | VInt(number: int)
    | VFloat(size: real)
    | VStr(text: string)
    | VList(items: seq<Value>)
    | VDict(fields: seq<Field>)

  datatype Field = Field(key: string, value: Value)

  /** How floats are written and read back; rounding is not part of the model. */
  datatype FloatCodec = FloatCodec(show: real -> string, read: string -> Option<real>)

  // ------------------------------------------------------------------- characters

  /** Characters a basic string may not contain as they are: control characters but for tab. */
  predicate IsControl(c: char) {
    var n := c as int;
    n <= 8 || 10 <= n <= 31 || n == 127
  }

  predicate IsLetterOrDigit(c: char) {
    'a' <= c <= 'z' || 'A' <= c <= 'Z' || '0' <= c <= '9'
  }

  predicate IsBareChar(c: char) {
    IsLetterOrDigit(c) || c == '_' || c == '-'
  }

  /** Characters of booleans and numbers. */
  predicate IsTokenChar(c: char) {
    IsBareChar(c) || c == '+' || c == '.'
  }

  predicate IsBare(key: string) {
    key != "" && forall c <- key :: IsBareChar(c)
  }

  predicate Plain(s: string) {
    forall c <- s :: !IsControl(c)
  }

  // ---------------------------------------------------------------------- printer

  /** str.replace for a single character. */
  function Replace(s: string, c: char, text: string): string {
    if s == "" then "" else (if s[0] == c then text else [s[0]]) + Replace(s[1..], c, text)
  }

  function Join(parts: seq<string>, separator: string): string {
    if parts == [] then "" else if |parts| == 1 then parts[0] else parts[0] + separator + Join(parts[1..], separator)
  }

  function IntText(n: int): string {
    if n < 0 then "-" + Decimal(-n) else Decimal(n)
  }

  /** No null outside a table; the source raises otherwise. */
  predicate Printable(v: Value) {
    match v
    case VNull => false
    case VList(items) => forall i :: 0 <= i < |items| ==> Printable(items[i])
    case VDict(fields) => forall i :: 0 <= i < |fields| && fields[i].value != VNull ==> Printable(fields[i].value)
    case _ => true
  }

  function Print(codec: FloatCodec, v: Value): string
    requires Printable(v)
    decreases v, 1
  {
    match v
    case VBool(b) => if b then "true" else "false"
    case VStr(s) => "\"" + Replace(Replace(s, '\\', "\\\\"), '"', "\\\"") + "\""
    case VInt(n) => IntText(n)
    case VFloat(x) => codec.show(x)
    case VDict(fields) => "{ " + Join(FieldTexts(codec, fields), ", ") + " }"
    case VList(items) => "[" + Join(ItemTexts(codec, items), ", ") + "]"
  }

  function ItemTexts(codec: FloatCodec, items: seq<Value>): (r: seq<string>)
    requires forall i :: 0 <= i < |items| ==> Printable(items[i])
    ensures |r| == |items|
    decreases items, 0
  {
    if items == [] then [] else [Print(codec, items[0])] + ItemTexts(codec, items[1..])
  }

  function FieldText(codec: FloatCodec, f: Field): string
    requires Printable(f.value)
    decreases f, 2
  {
    f.key + " = " + Print(codec, f.value)
  }

  /** The entries of a table; those without a value are left out. */
  function FieldTexts(codec: FloatCodec, fields: seq<Field>): seq<string>
    requires forall i :: 0 <= i < |fields| && fields[i].value != VNull ==> Printable(fields[i].value)
    decreases fields, 0
  {
    if fields == [] then []
    else (if fields[0].value == VNull then [] else [FieldText(codec, fields[0])]) + FieldTexts(codec, fields[1..])
  }

  // ----------------------------------------------------------------------- reader

  predicate IsBlankChar(c: char) {
    c == ' ' || c == '\t'
  }

  function SkipBlanks(s: string): (r: string)
    ensures |r| <= |s|
  {
    if s != "" && IsBlankChar(s[0]) then SkipBlanks(s[1..]) else s
  }

  /** Inside arrays line breaks count as blanks, too. */
  function SkipSpace(s: string): (r: string)
    ensures |r| <= |s|
  {
    if s != "" && (IsBlankChar(s[0]) || s[0] == '\n') then SkipSpace(s[1..])
    else if "\r\n" <= s then SkipSpace(s[2..])
    else s
  }

  function EscapeOf(c: char): Option<char> {
    match c
    case '"' => Some('"')
    case '\\' => Some('\\')
    case 'b' => Some(8 as char)
    case 't' => Some('\t')
    case 'n' => Some('\n')
    case 'f' => Some(12 as char)
    case 'r' => Some('\r')
    case _ => None
  }

  /** The rest of a basic string after its opening quote. */
  function ReadString(s: string): (r: Option<(string, string)>)
    ensures r.Some? ==> |r.value.1| < |s|
  {
    if s == "" then None
    else if s[0] == '"' then Some(("", s[1..]))
    else if s[0] == '\\' then
      if |s| < 2 || EscapeOf(s[1]).None? then None else Before(EscapeOf(s[1]).value, ReadString(s[2..]))
    else if IsControl(s[0]) then None
    else Before(s[0], ReadString(s[1..]))
  }

  function Before(c: char, r: Option<(string, string)>): Option<(string, string)> {
    if r.None? then None else Some(([c] + r.value.0, r.value.1))
  }

  function TakeToken(s: string): (r: (string, string))
    ensures |r.1| <= |s| && (r.0 != "" ==> |r.1| < |s|)
  {
    if s == "" || !IsTokenChar(s[0]) then ("", s) else ([s[0]] + TakeToken(s[1..]).0, TakeToken(s[1..]).1)
  }

  function TakeBare(s: string): (r: (string, string))
    ensures |r.1| <= |s|
  {
    if s == "" || !IsBareChar(s[0]) then ("", s) else ([s[0]] + TakeBare(s[1..]).0, TakeBare(s[1..]).1)
  }

  function DigitsValue(s: string): Option<nat> {
    if s == "" then None
    else
      var c := s[|s| - 1];
      if !('0' <= c <= '9') then None
      else if |s| == 1 then Some((c - '0') as int)
      else if DigitsValue(s[..|s| - 1]).None? then None
      else Some(10 * DigitsValue(s[..|s| - 1]).value + (c - '0') as int)
  }

  /** Decimal integers: an optional sign, no leading zeros. */
  function IntValue(s: string): Option<int> {
    var digits := if s != "" && (s[0] == '-' || s[0] == '+') then s[1..] else s;
    if |digits| > 1 && digits[0] == '0' then None
    else if DigitsValue(digits).None? then None
    else if s[0] == '-' then Some(0 - DigitsValue(digits).value)
    else Some(DigitsValue(digits).value)
  }

  function ScalarOf(codec: FloatCodec, token: string): Option<Value> {
    if token == "true" then Some(VBool(true))
    else if token == "false" then Some(VBool(false))
    else if IntValue(token).Some? then Some(VInt(IntValue(token).value))
    else if token != "" && codec.read(token).Some? then Some(VFloat(codec.read(token).value))
    else None
  }

  // A reading gives a part of the value and the text left over, or nothing.

  function AsText(r: Option<(string, string)>): Option<(Value, string)> {
    if r.None? then None else Some((VStr(r.value.0), r.value.1))
  }

  function AsList(r: Option<(seq<Value>, string)>): Option<(Value, string)> {
    if r.None? then None else Some((VList(r.value.0), r.value.1))
  }

  function AsTable(r: Option<(seq<Field>, string)>): Option<(Value, string)> {
    if r.None? then None else Some((VDict(r.value.0), r.value.1))
  }

  function AsField(key: string, r: Option<(Value, string)>): Option<(Field, string)> {
    if r.None? then None else Some((Field(key, r.value.0), r.value.1))
  }

  function FirstItem(item: Value, r: Option<(seq<Value>, string)>): Option<(seq<Value>, string)> {
    if r.None? then None else Some(([item] + r.value.0, r.value.1))
  }

  predicate HasKey(fields: seq<Field>, key: string) {
    exists f <- fields :: f.key == key
  }

  function FirstField(f: Field, r: Option<(seq<Field>, string)>): Option<(seq<Field>, string)> {
    if r.None? || HasKey(r.value.0, f.key) then None else Some(([f] + r.value.0, r.value.1))
  }

  function ReadValue(codec: FloatCodec, s: string): (r: Option<(Value, string)>)
    ensures r.Some? ==> |r.value.1| < |s|
    decreases |s|, 0
  {
    if s == "" then None
    else if s[0] == '"' then
      AsText(ReadString(s[1..]))
    else if s[0] == '[' then
      AsList(ReadItems(codec, s[1..]))
    else if s[0] == '{' then
      AsTable(ReadFields(codec, s[1..], true))
    else
      var (token, rest) := TakeToken(s);
      if token == "" || ScalarOf(codec, token).None? then None else Some((ScalarOf(codec, token).value, rest))
  }

  /** The rest of an array after "[" or a comma; a trailing comma is allowed. */
  function ReadItems(codec: FloatCodec, s: string): (r: Option<(seq<Value>, string)>)
    ensures r.Some? ==> |r.value.1| < |s|
    decreases |s|, 1
  {
    var t := SkipSpace(s);
    if t == "" then None
    else if t[0] == ']' then Some(([], t[1..]))
    else
      match ReadValue(codec, t)
      case None => None
      case Some((item, rest)) =>
        var u := SkipSpace(rest);
        if u == "" then None
        else if u[0] == ']' then Some(([item], u[1..]))
        else if u[0] == ',' then
          FirstItem(item, ReadItems(codec, u[1..]))
        else None
  }

  function ReadField(codec: FloatCodec, s: string): (r: Option<(Field, string)>)
    ensures r.Some? ==> |r.value.1| < |s|
    decreases |s|, 1
  {
    var (key, rest) := TakeBare(s);
    var t := SkipBlanks(rest);
    if key == "" || t == "" || t[0] != '=' then None
    else
      AsField(key, ReadValue(codec, SkipBlanks(t[1..])))
  }

  /** The rest of an inline table after "{" or a comma: on one line, no trailing comma, no key
      twice. */
  function ReadFields(codec: FloatCodec, s: string, first: bool): (r: Option<(seq<Field>, string)>)
    ensures r.Some? ==> |r.value.1| < |s|
    decreases |s|, 2
  {
    var t := SkipBlanks(s);
    if t == "" then None
    else if t[0] == '}' then (if first then Some(([], t[1..])) else None)
    else
      match ReadField(codec, t)
      case None => None
      case Some((f, rest)) =>
        var u := SkipBlanks(rest);
        if u == "" then None
        else if u[0] == '}' then Some(([f], u[1..]))
        else if u[0] == ',' then
          FirstField(f, ReadFields(codec, u[1..], false))
        else None
  }

  // --------------------------------------------------------------- what comes back

  /** The value without the table entries that are null. */
  function Stripped(v: Value): Value
    decreases v, 1
  {
    match v
    case VList(items) => VList(StrippedItems(items))
    case VDict(fields) => VDict(StrippedFields(fields))
    case _ => v
  }

  function StrippedItems(items: seq<Value>): (r: seq<Value>)
    ensures |r| == |items| && forall i :: 0 <= i < |r| ==> r[i] == Stripped(items[i])
    decreases items, 0
  {
    if items == [] then [] else [Stripped(items[0])] + StrippedItems(items[1..])
  }

  function StrippedFields(fields: seq<Field>): seq<Field>
    decreases fields, 0
  {
    if fields == [] then []
    else (if fields[0].value == VNull then [] else [Field(fields[0].key, Stripped(fields[0].value))]) + StrippedFields(fields[1..])
  }

  /** No string in the value holds a control character. */
  predicate Clean(v: Value) {
    match v
    case VStr(s) => Plain(s)
    case VList(items) => forall i :: 0 <= i < |items| ==> Clean(items[i])
    case VDict(fields) => forall i :: 0 <= i < |fields| ==> Clean(fields[i].value)
    case _ => true
  }

  /** The float is written as a number token of its own that reads back as the same float. */
  predicate Faithful(codec: FloatCodec, x: real) {
    var text := codec.show(x);
    && text != "" && (forall c <- text :: IsTokenChar(c))
    && text !in {"true", "false"} && IntValue(text).None? && codec.read(text) == Some(x)
  }

  predicate DistinctKeys(fields: seq<Field>) {
    forall i, j :: 0 <= i < j < |fields| ==> fields[i].key != fields[j].key
  }

  /** Table keys are bare and distinct, as those of the source are, and floats are faithful. */
  predicate Regular(codec: FloatCodec, v: Value) {
    match v
    case VFloat(x) => Faithful(codec, x)
    case VList(items) => forall i :: 0 <= i < |items| ==> Regular(codec, items[i])
    case VDict(fields) =>
      DistinctKeys(fields) && forall i :: 0 <= i < |fields| ==> IsBare(fields[i].key) && Regular(codec, fields[i].value)
    case _ => true
  }
}
