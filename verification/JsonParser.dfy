/** A parser for canonical JSON, and what it shows of the printer: injective and self-delimiting. */
module JsonParser {
  import opened Json
  import opened KeyOrder
  import opened Lists
  import opened Text

  // ------------------------------------------------------------------ the parser

  function NumberSpan(s: string): (n: nat)
    ensures n <= |s| && forall i :: 0 <= i < n ==> IsNumberChar(s[i])
    ensures n < |s| ==> !IsNumberChar(s[n])
  {
    if s == "" || !IsNumberChar(s[0]) then 0 else 1 + NumberSpan(s[1..])
  }

  function ParseWord(word: string, v: Value, s: string): Option<(Value, string)> {
    if word <= s then Some((v, s[|word|..])) else None
  }

  /** The object with these members; canonical text never repeats a key. */
  function MapOf(members: seq<(string, Value)>): map<string, Value> {
    if members == [] then map[] else MapOf(members[1..])[members[0].0 := members[0].1]
  }

  /** Reads one value off the front of a text: the value and the remainder. */
  function ParseValue(s: string): (r: Option<(Value, string)>)
    ensures r.Some? ==> |r.value.1| < |s|
    decreases |s|, 0
  {
    if s == "" then None
    else if IsNumberChar(s[0]) then
      var n := NumberSpan(s);
      Some((Num(s[..n]), s[n..]))
    else match s[0]
      case '"' => (match ParseString(s) case Some((text, rest)) => Some((Str(text), rest)) case None => None)
      case '[' => (match ParseItems(s[1..], true) case Some((items, rest)) => Some((Arr(items), rest)) case None => None)
      case '{' => (match ParseFields(s[1..], true) case Some((ms, rest)) => Some((Obj(MapOf(ms)), rest)) case None => None)
      case 'n' => ParseWord("null", Null, s)
      case 't' => ParseWord("true", Bool(true), s)
      case 'f' => ParseWord("false", Bool(false), s)
      case _ => None
  }

  /** The text behind the comma that stands before every member but the first. */
  function SkipComma(s: string, first: bool): (r: Option<string>)
    ensures r.Some? ==> |r.value| <= |s|
  {
    if first then Some(s) else if s != "" && s[0] == ',' then Some(s[1..]) else None
  }

  function ParseItems(s: string, first: bool): (r: Option<(seq<Value>, string)>)
    ensures r.Some? ==> |r.value.1| < |s|
    decreases |s|, 1
  {
    if s == "" then None
    else if s[0] == ']' then Some(([], s[1..]))
    else match SkipComma(s, first)
      case None => None
      case Some(t) =>
        match ParseValue(t)
        case None => None
        case Some((v, rest)) =>
          match ParseItems(rest, false)
          case None => None
          case Some((items, after)) => Some(([v] + items, after))
  }

  function ParseMember(s: string): (r: Option<((string, Value), string)>)
    ensures r.Some? ==> |r.value.1| < |s|
    decreases |s|, 1
  {
    match ParseString(s)
    case None => None
    case Some((key, rest)) =>
      if rest == "" || rest[0] != ':' then None
      else match ParseValue(rest[1..])
        case None => None
        case Some((v, after)) => Some(((key, v), after))
  }

  function ParseFields(s: string, first: bool): (r: Option<(seq<(string, Value)>, string)>)
    ensures r.Some? ==> |r.value.1| < |s|
    decreases |s|, 2
  {
    if s == "" then None
    else if s[0] == '}' then Some(([], s[1..]))
    else match SkipComma(s, first)
      case None => None
      case Some(t) =>
        match ParseMember(t)
        case None => None
        case Some((m, rest)) =>
          match ParseFields(rest, false)
          case None => None
          case Some((ms, after)) => Some(([m] + ms, after))
  }

  // ------------------------------------------------------------------ reading back what was printed

  /** What follows cannot be taken for more digits of a number. */
  predicate Stops(v: Value, rest: string) {
    v.Num? && rest != "" ==> !IsNumberChar(rest[0])
  }

  lemma {:induction false} SpanOfNumber(text: string, rest: string)
    requires forall i :: 0 <= i < |text| ==> IsNumberChar(text[i])
    requires rest != "" ==> !IsNumberChar(rest[0])
    ensures NumberSpan(text + rest) == |text|
    decreases |text|
  {
    if text == "" {
      assert text + rest == rest;
    } else {
      assert (text + rest)[1..] == text[1..] + rest;
      SpanOfNumber(text[1..], rest);
    }
  }

  lemma NumberReadsBack(v: Value, rest: string)
    requires v.Num? && Stops(v, rest)
    ensures ParseValue(Print(v) + rest) == Some((v, rest))
  {
    var s := v.text + rest;
    SpanOfNumber(v.text, rest);
    assert s[..|v.text|] == v.text && s[|v.text|..] == rest;
  }

  lemma WordReadsBack(word: string, v: Value, rest: string)
    ensures ParseWord(word, v, word + rest) == Some((v, rest))
  {
  }

  lemma LeafReadsBack(v: Value, rest: string)
    requires !v.Arr? && !v.Obj? && Stops(v, rest)
    ensures ParseValue(Print(v) + rest) == Some((v, rest))
  {
    hide ParseItems, ParseFields, ParseString, ParseWord;
    match v {
      case Num(_) => NumberReadsBack(v, rest);
      case Null => WordReadsBack("null", Null, rest);
      case Bool(b) => WordReadsBack(if b then "true" else "false", v, rest);
      case Str(s) => StringReadsBack(s, rest);
    }
  }

  /** Printed values begin like values, never like the end of a list or of an object. */
  lemma BeginsLikeAValue(v: Value)
    ensures Print(v) != "" && Print(v)[0] != ']' && Print(v)[0] != '}' && Print(v)[0] != ','
  {
    if v.Num? {
      assert IsNumberChar(v.text[0]);
    }
  }

  lemma {:induction false} ValueReadsBack(v: Value, rest: string)
    requires Stops(v, rest)
    ensures ParseValue(Print(v) + rest) == Some((v, rest))
    decreases v, 1, 0
  {
    match v {
      case Arr(items) =>
        ItemsReadBack(v, items, 0, rest);
        ArrayReads(v, rest);
      case Obj(fields) =>
        var keys := SortedKeys(fields.Keys);
        FieldsReadBack(v, keys, 0, rest);
        ObjectReads(v, keys, rest);
      case _ => LeafReadsBack(v, rest);
    }
  }

  lemma ArrayReads(v: Value, rest: string)
    requires v.Arr? && ParseItems(PrintItems(v, v.items, 0) + rest, true) == Some((v.items[0..], rest))
    ensures ParseValue(Print(v) + rest) == Some((v, rest))
  {
    hide ParseItems, PrintItems, ParseFields, ParseString;
    var body := PrintItems(v, v.items, 0);
    assert (("[" + body) + rest)[1..] == body + rest;
    assert v.items[0..] == v.items;
  }

  lemma ObjectReads(v: Value, keys: seq<string>, rest: string)
    requires v.Obj? && keys == SortedKeys(v.fields.Keys)
    requires ParseFields(PrintFields(v, keys, 0) + rest, true) == Some((Members(v.fields, keys), rest))
    ensures ParseValue(Print(v) + rest) == Some((v, rest))
  {
    hide ParseItems, PrintFields, ParseFields, ParseString, SortedKeys;
    var body := PrintFields(v, keys, 0);
    assert (("{" + body) + rest)[1..] == body + rest;
    MembersMakeTheMap(v.fields, keys);
  }

  lemma {:induction false} ItemsReadBack(v: Value, items: seq<Value>, i: nat, rest: string)
    requires v == Arr(items) && i <= |items|
    ensures ParseItems(PrintItems(v, items, i) + rest, i == 0) == Some((items[i..], rest))
    decreases v, 0, |items| - i
  {
    hide Print, ParseValue;
    if i < |items| {
      var tail := PrintItems(v, items, i + 1) + rest;
      ItemsReadBack(v, items, i + 1, rest);
      TailStops(PrintItems(v, items, i + 1), rest);
      ValueReadsBack(items[i], tail);
      BeginsLikeAValue(items[i]);
      RegroupTail(Comma(i > 0), Print(items[i]), PrintItems(v, items, i + 1), rest);
      ItemReads(i, Print(items[i]), items[i], items[i + 1..], tail, rest);
      assert items[i..] == [items[i]] + items[i + 1..];
    } else {
      var s := "]" + rest;
      assert s[0] == ']' && s[1..] == rest && items[i..] == [];
    }
  }

  lemma RegroupTail(a: string, b: string, c: string, d: string)
    ensures (a + (b + c)) + d == a + (b + (c + d))
  {
  }

  /** What comes after a member is a comma or a bracket. */
  lemma TailStops(text: string, rest: string)
    requires text != "" && text[0] in ",]}"
    ensures text + rest != "" && !IsNumberChar((text + rest)[0])
  {
  }

  /** One item of a list, given that its text and the tail read back. */
  lemma ItemReads(i: nat, text: string, item: Value, items: seq<Value>, tail: string, rest: string)
    requires text != "" && text[0] != ']' && text[0] != ','
    requires ParseValue(text + tail) == Some((item, tail)) && ParseItems(tail, false) == Some((items, rest))
    ensures ParseItems(Comma(i > 0) + (text + tail), i == 0) == Some(([item] + items, rest))
  {
    hide ParseValue;
    var s := Comma(i > 0) + (text + tail);
    if i == 0 {
      assert s == text + tail;
    } else {
      assert s[1..] == text + tail;
    }
  }

  // ------------------------------------------------------------------ objects

  function Members(fields: map<string, Value>, keys: seq<string>): seq<(string, Value)>
    requires forall k :: k in keys ==> k in fields
  {
    if keys == [] then [] else [(keys[0], fields[keys[0]])] + Members(fields, keys[1..])
  }

  lemma {:induction false} MembersHold(fields: map<string, Value>, keys: seq<string>)
    requires forall k :: k in keys ==> k in fields
    ensures forall k :: k in MapOf(Members(fields, keys)) <==> k in keys
    ensures forall k :: k in keys ==> MapOf(Members(fields, keys))[k] == fields[k]
  {
    if keys != [] {
      MembersHold(fields, keys[1..]);
      assert keys == [keys[0]] + keys[1..];
      assert Members(fields, keys)[1..] == Members(fields, keys[1..]);
    }
  }

  lemma MembersMakeTheMap(fields: map<string, Value>, keys: seq<string>)
    requires Covers(keys, fields.Keys)
    ensures MapOf(Members(fields, keys)) == fields
  {
    MembersHold(fields, keys);
  }

  lemma {:induction false} FieldsReadBack(v: Value, keys: seq<string>, i: nat, rest: string)
    requires v.Obj? && (forall k :: k in keys ==> k in v.fields) && i <= |keys|
    ensures ParseFields(PrintFields(v, keys, i) + rest, i == 0) == Some((Members(v.fields, keys[i..]), rest))
    decreases v, 0, |keys| - i
  {
    hide Print, ParseValue, ParseString, PrintString;
    if i < |keys| {
      assert keys[i] in keys;
      var value := v.fields[keys[i]];
      var more := PrintFields(v, keys, i + 1);
      var tail := more + rest;
      FieldsReadBack(v, keys, i + 1, rest);
      TailStops(more, rest);
      ValueReadsBack(value, tail);
      MemberReads(keys[i], Print(value), value, tail);
      RegroupMember(Comma(i > 0), PrintString(keys[i]), Print(value), more, rest);
      BeginsWithQuote(keys[i]);
      FieldReads(i, PrintString(keys[i]), ":" + (Print(value) + tail), (keys[i], value),
                 Members(v.fields, keys[i + 1..]), tail, rest);
      assert keys[i..][1..] == keys[i + 1..];
    }
  }

  lemma BeginsWithQuote(key: string)
    ensures PrintString(key) != "" && PrintString(key)[0] == '"'
  {
  }

  lemma RegroupMember(comma: string, key: string, value: string, more: string, rest: string)
    ensures (comma + (key + (":" + (value + more)))) + rest == comma + (key + (":" + (value + (more + rest))))
  {
    assert (value + more) + rest == value + (more + rest);
    assert (":" + (value + more)) + rest == ":" + ((value + more) + rest);
    RegroupTail(comma, key, ":" + (value + more), rest);
  }

  lemma MemberReads(key: string, text: string, value: Value, tail: string)
    requires ParseValue(text + tail) == Some((value, tail))
    ensures ParseMember(PrintString(key) + (":" + (text + tail))) == Some(((key, value), tail))
  {
    hide ParseValue, ParseString, PrintString;
    StringReadsBack(key, ":" + (text + tail));
    assert (":" + (text + tail))[1..] == text + tail;
  }

  lemma FieldReads(
    i: nat, key: string, after: string, m: (string, Value), ms: seq<(string, Value)>, tail: string, rest: string)
    requires key != "" && key[0] == '"'
    requires ParseMember(key + after) == Some((m, tail)) && ParseFields(tail, false) == Some((ms, rest))
    ensures ParseFields(Comma(i > 0) + (key + after), i == 0) == Some(([m] + ms, rest))
  {
    hide ParseMember;
    var s := Comma(i > 0) + (key + after);
    if i == 0 {
      assert s == key + after;
    } else {
      assert s[1..] == key + after;
    }
  }

  // ------------------------------------------------------------------ what the printer guarantees

  /** Equal texts followed by anything that does not go on with digits carry equal values and equal remainders. */
  lemma PrintIsSelfDelimiting(v: Value, w: Value, r: string, r': string)
    requires Stops(v, r) && Stops(w, r') && Print(v) + r == Print(w) + r'
    ensures v == w && r == r'
  {
    ValueReadsBack(v, r);
    ValueReadsBack(w, r');
  }

  /** Two configurations have one canonical text exactly when they are one tree. */
  lemma PrintIsInjective(v: Value, w: Value)
    ensures Print(v) == Print(w) <==> v == w
  {
    if Print(v) == Print(w) {
      PrintIsSelfDelimiting(v, w, "", "");
    }
  }
}
