/** A reader of the text the content hash is taken over, written without the functions that print it. */
module AuditReader {
  import opened AuditChain
  import opened Lists
  import opened Text

  // ------------------------------------------------------------------ the reader

  /** The characters of a %q literal up to its closing quote. */
  function ReadBody(s: string): (r: Option<(string, string)>)
    ensures r.Some? ==> |r.value.1| < |s|
    decreases |s|
  {
    if s == "" then None
    else if s[0] == '"' then Some(("", s[1..]))
    else match UnquoteChar(s)
      case None => None
      case Some((c, rest)) =>
        match ReadBody(rest)
        case None => None
        case Some((tail, after)) => Some(([c] + tail, after))
  }

  function ReadQuoted(s: string): (r: Option<(string, string)>)
    ensures r.Some? ==> |r.value.1| < |s|
  {
    if s == "" || s[0] != '"' then None else ReadBody(s[1..])
  }

  /** A quoted key, a colon, a quoted value. */
  function ReadPair(s: string): (r: Option<((string, string), string)>)
    ensures r.Some? ==> |r.value.1| < |s|
  {
    match ReadQuoted(s)
    case None => None
    case Some((key, rest)) =>
      if rest == "" || rest[0] != ':' then None
      else
        match ReadQuoted(rest[1..])
        case None => None
        case Some((value, after)) => Some(((key, value), after))
  }

  /** Pairs separated by commas, closed by a brace that ends the text. */
  function ReadPairs(s: string): Option<seq<(string, string)>>
    decreases |s|
  {
    match ReadPair(s)
    case None => None
    case Some((pair, rest)) =>
      if rest == "}" then Some([pair])
      else if rest == "" || rest[0] != ',' then None
      else
        match ReadPairs(rest[1..])
        case None => None
        case Some(pairs) => Some([pair] + pairs)
  }

  function ReadCanonical(s: string): Option<seq<(string, string)>> {
    if |s| >= 13 && s[..13] == "audit_log_v1{" then ReadPairs(s[13..]) else None
  }

  // ------------------------------------------------------------------ it reads what is written

  lemma BodyUnfolds(k: Crypto, v: string, rest: string)
    ensures var code := QuoteChar(k.printable);
      && (v == "" ==> Encode(code, v) + "\"" + rest == "\"" + rest)
      && (v != "" ==> Encode(code, v) + "\"" + rest == code(v[0]) + (Encode(code, v[1..]) + "\"" + rest))
  {
    hide QuoteChar;
  }

  lemma {:induction false} BodyReads(k: Crypto, v: string, rest: string)
    ensures ReadBody(Encode(QuoteChar(k.printable), v) + "\"" + rest) == Some((v, rest))
    decreases |v|
  {
    hide QuoteChar, UnquoteChar, Encode;
    QuoteDecodes(k.printable);
    EmptyIffQuoteFirst(QuoteChar(k.printable), v, rest);
    BodyUnfolds(k, v, rest);
    if v != "" {
      BodyReads(k, v[1..], rest);
      assert v == [v[0]] + v[1..];
    }
  }

  lemma QuotedReads(k: Crypto, v: string, rest: string)
    ensures ReadQuoted(Quote(k, v) + rest) == Some((v, rest))
  {
    hide ReadBody, QuoteChar;
    var body := Encode(QuoteChar(k.printable), v) + "\"";
    assert Quote(k, v) == "\"" + body;
    assert (Quote(k, v) + rest)[1..] == body + rest;
    BodyReads(k, v, rest);
  }

  lemma PartIsPair(k: Crypto, key: string, value: string, rest: string)
    ensures Part(k, key, value) + rest == Quote(k, key) + (":" + (Quote(k, value) + rest))
  {
    hide QuoteChar;
    var q, w := Quote(k, key), Encode(QuoteChar(k.printable), value);
    assert Quote(k, value) + rest == "\"" + ((w + "\"") + rest);
    assert Part(k, key, value) + rest == q + (":" + ("\"" + ((w + "\"") + rest)));
  }

  lemma PairReads(k: Crypto, key: string, value: string, rest: string)
    ensures ReadPair(Part(k, key, value) + rest) == Some(((key, value), rest))
  {
    hide ReadQuoted, Part, Quote;
    var after := ":" + (Quote(k, value) + rest);
    PartIsPair(k, key, value, rest);
    QuotedReads(k, key, after);
    QuotedReads(k, value, rest);
    assert after[1..] == Quote(k, value) + rest;
  }

  lemma JoinedIsPairs(k: Crypto, fields: seq<(string, string)>)
    requires fields != []
    ensures var part := Part(k, fields[0].0, fields[0].1);
      && (|fields| == 1 ==> Joined(k, fields) + "}" == part + "}")
      && (|fields| > 1 ==> Joined(k, fields) + "}" == part + ("," + (Joined(k, fields[1..]) + "}")))
  {
    hide Part;
    var part, rest := Part(k, fields[0].0, fields[0].1), Joined(k, fields[1..]);
    assert Joined(k, fields) == part + (Comma(|fields| > 1) + rest);
    if |fields| > 1 {
      assert (part + ("," + rest)) + "}" == part + ("," + (rest + "}"));
    } else {
      assert fields[1..] == [];
    }
  }

  lemma {:induction false} PairsRead(k: Crypto, fields: seq<(string, string)>)
    requires fields != []
    ensures ReadPairs(Joined(k, fields) + "}") == Some(fields)
    decreases |fields|
  {
    hide ReadPair, Part, Joined;
    JoinedIsPairs(k, fields);
    if |fields| == 1 {
      PairReads(k, fields[0].0, fields[0].1, "}");
      assert fields == [fields[0]];
    } else {
      var rest := "," + (Joined(k, fields[1..]) + "}");
      PairReads(k, fields[0].0, fields[0].1, rest);
      assert rest[1..] == Joined(k, fields[1..]) + "}" && rest != "}" by {
        assert rest[0] == ',';
      }
      PairsRead(k, fields[1..]);
      assert fields == [fields[0]] + fields[1..];
    }
  }

  /** The text reads back as the six columns with their values, in increasing order of the column names. */
  lemma CanonicalReadsBack(k: Crypto, r: AuditRow)
    ensures ReadCanonical(Canonical(k, r)) ==
      Some([("category", r.category), ("created_at", r.created), ("details_json", r.details), ("id", r.id),
            ("level", r.level), ("message", r.message)])
  {
    hide ReadPairs, Joined;
    var text := Joined(k, Fields(r)) + "}";
    assert Canonical(k, r) == "audit_log_v1{" + text;
    assert Canonical(k, r)[..13] == "audit_log_v1{" && Canonical(k, r)[13..] == text;
    PairsRead(k, Fields(r));
  }

  // ------------------------------------------------------------------ the text itself

  /** Printable characters, none of them a quote or a backslash. */
  predicate Plain(k: Crypto, s: string) {
    forall i :: 0 <= i < |s| ==> k.printable(s[i]) && s[i] != '"' && s[i] != '\\'
  }

  lemma {:induction false} PlainIsItself(k: Crypto, s: string)
    requires Plain(k, s)
    ensures Encode(QuoteChar(k.printable), s) == s
    decreases |s|
  {
    if s != "" {
      PlainIsItself(k, s[1..]);
      assert s == [s[0]] + s[1..];
    }
  }

  /** Key and value between quotes, with nothing escaped. */
  function Bare(key: string, value: string): string {
    "\"" + key + "\":\"" + value + "\""
  }

  lemma PlainPart(k: Crypto, key: string, value: string)
    requires Plain(k, key) && Plain(k, value)
    ensures Part(k, key, value) == Bare(key, value)
  {
    hide QuoteChar, Encode;
    PlainIsItself(k, key);
    PlainIsItself(k, value);
  }

  /** Values that need no escaping stand in the text as they are. */
  lemma PlainText(k: Crypto, r: AuditRow)
    requires forall c :: 'a' <= c <= 'z' || c == '_' ==> k.printable(c)
    requires Plain(k, r.category) && Plain(k, r.created) && Plain(k, r.details) && Plain(k, r.id)
    requires Plain(k, r.level) && Plain(k, r.message)
    ensures Canonical(k, r) ==
      "audit_log_v1{"
      + (Bare("category", r.category) + ("," + (Bare("created_at", r.created) + ("," + (Bare("details_json", r.details)
      + ("," + (Bare("id", r.id) + ("," + (Bare("level", r.level) + ("," + Bare("message", r.message)))))))))))
      + "}"
  {
    hide Part, Plain, Bare;
    var f := Fields(r);
    LastJoined(k, f[5..]);
    forall i | 0 <= i < 6
      ensures Part(k, f[i].0, f[i].1) == Bare(f[i].0, f[i].1)
    {
      ColumnNameIsPlain(k, r, i);
      PlainPart(k, f[i].0, f[i].1);
    }
    forall i | 0 <= i < 5
      ensures Joined(k, f[i..]) == Part(k, f[i].0, f[i].1) + ("," + Joined(k, f[i + 1..]))
    {
      assert f[i..][1..] == f[i + 1..];
    }
    assert f[0..] == f;
  }

  lemma LastJoined(k: Crypto, fields: seq<(string, string)>)
    requires |fields| == 1
    ensures Joined(k, fields) == Part(k, fields[0].0, fields[0].1)
  {
    assert fields[1..] == [];
  }

  lemma ColumnNameIsPlain(k: Crypto, r: AuditRow, i: nat)
    requires i < 6 && forall c :: 'a' <= c <= 'z' || c == '_' ==> k.printable(c)
    ensures Plain(k, Fields(r)[i].0)
  {
  }

  /** The escapes of strconv.Quote: a letter where there is one, else two, four or eight hexadecimal digits. */
  lemma EscapedText(printable: char -> bool, c: char)
    requires !printable(c) || c == '"' || c == '\\'
    ensures var code := QuoteChar(printable)(c);
      && (c == '"' ==> code == "\\\"") && (c == '\\' ==> code == "\\\\")
      && (c == '\U{07}' ==> code == "\\a") && (c == '\U{08}' ==> code == "\\b")
      && (c == '\t' ==> code == "\\t") && (c == '\n' ==> code == "\\n") && (c == '\U{0B}' ==> code == "\\v")
      && (c == '\U{0C}' ==> code == "\\f") && (c == '\r' ==> code == "\\r")
      && (c < '\U{07}' || '\r' < c < ' ' || c == '\U{7F}' ==> |code| == 4 && code[..2] == "\\x")
      && ('\U{7F}' < c && (c as int) < 0x10000 ==> |code| == 6 && code[..2] == "\\u")
      && ((c as int) >= 0x10000 ==> |code| == 10 && code[..2] == "\\U")
  {
    hide Hex;
  }
}
