/** Canonical JSON (internal/config/canonical.go): the printer with sorted keys, and a parser that reads it back. */
module Json {
  import opened KeyOrder
  import opened Lists
  import opened Text

  predicate IsNumberChar(c: char) {
    c in "0123456789+-.e"
  }

  predicate IsNumber(s: string) {
    s != "" && forall i :: 0 <= i < |s| ==> IsNumberChar(s[i])
  }

  /** A number is kept as the text it is printed with: distinct finite float64 values have distinct shortest texts. */
  type NumberText = s: string | IsNumber(s) witness "0"

  datatype Value =
    | Null
    | Bool(b: bool)
    | Num(text: NumberText)
    | Str(s: string)
    | Arr(items: seq<Value>)
    | Obj(fields: map<string, Value>)

  // ------------------------------------------------------------------ strings

  /** One character of a JSON string as encoding/json writes it (section 7 of RFC 8259, HTML characters escaped). */
  function EscapeChar(c: char): string {
    if c == '"' || c == '\\' then ['\\', c]
    else if c == '\U{08}' then "\\b"
    else if c == '\U{0C}' then "\\f"
    else if c == '\n' then "\\n"
    else if c == '\r' then "\\r"
    else if c == '\t' then "\\t"
    else if c < ' ' || c == '<' || c == '>' || c == '&' || c == '\U{2028}' || c == '\U{2029}' then "\\u" + Hex(c as int, 4)
    else [c]
  }

  /**
   * A character that stands in a JSON text as it is: no control, quote, backslash or HTML character, no line
   * separator.
   */
  predicate Verbatim(c: char) {
    c >= ' ' && c !in "\"\\<>&" && (c as int) != 0x2028 && (c as int) != 0x2029
  }

  /** Every character is written verbatim or as an escape, and the escape consists of verbatim characters and \ or ". */
  lemma EscapeMeans(c: char)
    ensures var code := EscapeChar(c);
      && (Verbatim(c) <==> code == [c])
      && (!Verbatim(c) ==> |code| >= 2 && code[0] == '\\')
      && (forall i :: 0 <= i < |code| ==> Verbatim(code[i]) || code[i] == '\\' || (code == "\\\"" && i == 1))
      && (c == '"' ==> code == "\\\"") && (c == '\\' ==> code == "\\\\") && (c == '\n' ==> code == "\\n")
      && (c == '\r' ==> code == "\\r") && (c == '\t' ==> code == "\\t")
      && (c == '\U{08}' ==> code == "\\b") && (c == '\U{0C}' ==> code == "\\f")
      && (!Verbatim(c) && c !in "\"\\\n\r\t\U{08}\U{0C}" ==> |code| == 6 && code[..2] == "\\u")
  {
    var h := Hex(c as int, 4);
    forall i | 0 <= i < 4
      ensures Verbatim(h[i])
    {
      HexIsVerbatim(h[i]);
    }
  }

  lemma HexIsVerbatim(c: char)
    requires IsHex(c)
    ensures Verbatim(c)
  {
    var i :| 0 <= i < 16 && DIGITS[i] == c;
  }

  function UnescapeChar(s: string): Option<(char, string)> {
    if s == "" then None
    else if s[0] != '\\' then Some((s[0], s[1..]))
    else if |s| < 2 then None
    else match s[1]
      case 'b' => Some(('\U{08}', s[2..]))
      case 'f' => Some(('\U{0C}', s[2..]))
      case 'n' => Some(('\n', s[2..]))
      case 'r' => Some(('\r', s[2..]))
      case 't' => Some(('\t', s[2..]))
      case 'u' => ReadHexChar(s[2..], 4)
      case c => if c == '"' || c == '\\' || c == '/' then Some((c, s[2..])) else None
  }

  lemma UnescapeHexBack(c: char, rest: string)
    requires |EscapeChar(c)| > 2
    ensures UnescapeChar(EscapeChar(c) + rest) == Some((c, rest))
  {
    hide Hex, ReadHexChar;
    var h := Hex(c as int, 4);
    assert EscapeChar(c) == "\\u" + h;
    assert (("\\u" + h) + rest)[2..] == h + rest;
    assert Pow16(3) == 0x1000;
    ReadHexCharBack(c, 4, rest);
  }

  lemma UnescapeBack(c: char, rest: string)
    ensures UnescapeChar(EscapeChar(c) + rest) == Some((c, rest))
  {
    hide Hex, ReadHexChar;
    var q := EscapeChar(c);
    if |q| == 1 {
      assert (q + rest)[1..] == rest;
    } else if |q| == 2 {
      assert (q + rest)[0] == q[0] && (q + rest)[1] == q[1] && (q + rest)[2..] == rest;
    } else {
      UnescapeHexBack(c, rest);
    }
  }

  lemma EscapeDecodes()
    ensures Decodes(EscapeChar, UnescapeChar)
  {
    forall c, rest
      ensures UnescapeChar(EscapeChar(c) + rest) == Some((c, rest))
    {
      UnescapeBack(c, rest);
    }
  }

  function PrintString(s: string): string {
    "\"" + (Encode(EscapeChar, s) + "\"")
  }

  /** The characters up to the closing quote. */
  function ParseBody(s: string): (r: Option<(string, string)>)
    ensures r.Some? ==> |r.value.1| < |s|
    decreases |s|
  {
    if s == "" then None
    else if s[0] == '"' then Some(("", s[1..]))
    else match UnescapeChar(s)
      case None => None
      case Some((c, rest)) =>
        match ParseBody(rest)
        case None => None
        case Some((tail, after)) => Some(([c] + tail, after))
  }

  function ParseString(s: string): (r: Option<(string, string)>)
    ensures r.Some? ==> |r.value.1| < |s|
  {
    if s == "" || s[0] != '"' then None else ParseBody(s[1..])
  }

  /** The text of a string literal after its opening quote, one character at a time. */
  lemma BodyUnfolds(s: string, rest: string)
    ensures s == "" ==> Encode(EscapeChar, s) + "\"" + rest == "\"" + rest
    ensures s != "" ==>
      Encode(EscapeChar, s) + "\"" + rest == EscapeChar(s[0]) + (Encode(EscapeChar, s[1..]) + "\"" + rest)
  {
  }

  lemma {:induction false} BodyReadsBack(s: string, rest: string)
    ensures ParseBody(Encode(EscapeChar, s) + "\"" + rest) == Some((s, rest))
    decreases |s|
  {
    hide UnescapeChar, EscapeChar, Encode;
    EscapeDecodes();
    EmptyIffQuoteFirst(EscapeChar, s, rest);
    BodyUnfolds(s, rest);
    if s != "" {
      BodyReadsBack(s[1..], rest);
      assert s == [s[0]] + s[1..];
    }
  }

  lemma StringReadsBack(s: string, rest: string)
    ensures ParseString(PrintString(s) + rest) == Some((s, rest))
  {
    var body := Encode(EscapeChar, s) + "\"";
    assert (PrintString(s) + rest)[1..] == body + rest;
    BodyReadsBack(s, rest);
  }

  // ------------------------------------------------------------------ the printer

  /** The text of a value. */
  ghost function Print(v: Value): string
    decreases v, 1, 0
  {
    match v
    case Null => "null"
    case Bool(b) => if b then "true" else "false"
    case Num(text) => text
    case Str(s) => PrintString(s)
    case Arr(items) => "[" + PrintItems(v, items, 0)
    case Obj(fields) => "{" + PrintFields(v, SortedKeys(fields.Keys), 0)
  }

  ghost function PrintItems(v: Value, items: seq<Value>, i: nat): string
    requires v == Arr(items) && i <= |items|
    decreases v, 0, |items| - i
  {
    if i == |items| then "]" else Comma(i > 0) + (Print(items[i]) + PrintItems(v, items, i + 1))
  }

  ghost function PrintFields(v: Value, keys: seq<string>, i: nat): string
    requires v.Obj? && (forall k :: k in keys ==> k in v.fields) && i <= |keys|
    decreases v, 0, |keys| - i
  {
    if i == |keys| then "}"
    else Comma(i > 0) + (PrintString(keys[i]) + (":" + (Print(v.fields[keys[i]]) + PrintFields(v, keys, i + 1))))
  }

  /** bytes.Buffer. */
  class Buffer {
    var text: string

    constructor ()
      ensures text == ""
    {
      text := "";
    }

    method Write(s: string)
      modifies this
      ensures text == old(text) + s
    {
      text := text + s;
    }
  }

  lemma ItemsStep(text: string, v: Value, items: seq<Value>, i: nat)
    requires v == Arr(items) && i < |items|
    ensures text + PrintItems(v, items, i) == ((text + Comma(i > 0)) + Print(items[i])) + PrintItems(v, items, i + 1)
  {
    hide Print;
    Regroup(text, Comma(i > 0), Print(items[i]), PrintItems(v, items, i + 1));
  }

  lemma FieldsEnd(v: Value, keys: seq<string>)
    requires v.Obj? && (forall k :: k in keys ==> k in v.fields)
    ensures PrintFields(v, keys, |keys|) == "}"
  {
  }

  lemma FieldsStep(text: string, v: Value, keys: seq<string>, i: nat)
    requires v.Obj? && (forall k :: k in keys ==> k in v.fields) && i < |keys|
    ensures text + PrintFields(v, keys, i) ==
            ((((text + Comma(i > 0)) + PrintString(keys[i])) + ":") + Print(v.fields[keys[i]])) + PrintFields(v, keys, i + 1)
  {
    hide Print, PrintString;
    var key, value, rest := PrintString(keys[i]), Print(v.fields[keys[i]]), PrintFields(v, keys, i + 1);
    Regroup(text, Comma(i > 0), key, ":" + (value + rest));
    Regroup((text + Comma(i > 0)) + key, ":", value, rest);
  }

  lemma Behind(text: string, open: string, rest: string)
    ensures (text + open) + rest == text + (open + rest)
  {
  }

  /** Appends the canonical text of a value, whatever order the maps are enumerated in. */
  method WriteSortedJSON(buf: Buffer, v: Value)
    modifies buf
    ensures buf.text == old(buf.text) + Print(v)
    decreases v, 1
  {
    hide PrintString, PrintItems, PrintFields, SortedKeys;
    match v {
      case Null => buf.Write("null");
      case Bool(b) =>
        if b {
          buf.Write("true");
        } else {
          buf.Write("false");
        }
      case Num(text) => buf.Write(text);
      case Str(s) => buf.Write(PrintString(s));
      case Arr(items) =>
        buf.Write("[");
        WriteItems(buf, v, items);
        Behind(old(buf.text), "[", PrintItems(v, items, 0));
      case Obj(fields) =>
        buf.Write("{");
        WriteFields(buf, v, fields);
        Behind(old(buf.text), "{", PrintFields(v, SortedKeys(fields.Keys), 0));
    }
  }

  method WriteItems(buf: Buffer, v: Value, items: seq<Value>)
    requires v == Arr(items)
    modifies buf
    ensures buf.text == old(buf.text) + PrintItems(v, items, 0)
    decreases v, 0
  {
    hide Print;
    for i := 0 to |items|
      invariant buf.text + PrintItems(v, items, i) == old(buf.text) + PrintItems(v, items, 0)
    {
      ItemsStep(buf.text, v, items, i);
      if i > 0 {
        buf.Write(",");
      }
      WriteSortedJSON(buf, items[i]);
    }
    buf.Write("]");
  }

  method WriteFields(buf: Buffer, v: Value, fields: map<string, Value>)
    requires v == Obj(fields)
    modifies buf
    ensures buf.text == old(buf.text) + PrintFields(v, SortedKeys(fields.Keys), 0)
    decreases v, 0
  {
    hide Print, PrintString, PrintFields, SortedKeys, Increasing;
    var keys := CollectSorted(fields.Keys);
    assert forall k :: k in keys ==> k in fields;
    hide Covers;
    FieldsEnd(v, keys);
    for i := 0 to |keys|
      invariant buf.text + PrintFields(v, keys, i) == old(buf.text) + PrintFields(v, keys, 0)
    {
      FieldsStep(buf.text, v, keys, i);
      if i > 0 {
        buf.Write(",");
      }
      buf.Write(PrintString(keys[i]));
      buf.Write(":");
      WriteSortedJSON(buf, fields[keys[i]]);
    }
    buf.Write("}");
  }

  method CanonicalJSONForFingerprint(fields: map<string, Value>) returns (text: string)
    ensures text == Print(Obj(fields))
  {
    var buf := new Buffer();
    WriteSortedJSON(buf, Obj(fields));
    text := buf.text;
  }
}
