/** The tamper-evident audit log: verifier (internal/db/audit_chain.go) and writer (internal/db/db.go). */
module AuditChain {
  import opened KeyOrder
  import opened Lists
  import opened Text

  /** A row of audit_logs as the verifier reads it: NULL columns are empty strings. */
  datatype AuditRow = AuditRow(
    id: string, category: string, level: string, message: string, details: string, created: string,
    prevHash: string, contentHash: string, chainHash: string)

  /** sha256Hex, and which characters strconv.Quote prints as they are. Nothing else is known of either. */
  datatype Crypto = Crypto(hash: string -> string, printable: char -> bool)

  predicate IsDigest(s: string) {
    |s| == 64 && forall i :: 0 <= i < |s| ==> IsHex(s[i])
  }

  /** The hash is written as 64 hexadecimal digits (section 6.2 of FIPS 180-4 gives 256 bits). */
  ghost predicate WritesDigests(k: Crypto) {
    forall x :: IsDigest(k.hash(x))
  }

  // ------------------------------------------------------------------ canonical content

  /** One character of a %q literal. */
  function QuoteChar(printable: char -> bool): char -> string {
    (c: char) =>
      if c == '"' || c == '\\' then ['\\', c]
      else if printable(c) then [c]
      else if c == '\U{07}' then "\\a"
      else if c == '\U{08}' then "\\b"
      else if c == '\U{0C}' then "\\f"
      else if c == '\n' then "\\n"
      else if c == '\r' then "\\r"
      else if c == '\t' then "\\t"
      else if c == '\U{0B}' then "\\v"
      else if c < ' ' || c == '\U{7F}' then "\\x" + Hex(c as int, 2)
      else if (c as int) < 0x10000 then "\\u" + Hex(c as int, 4)
      else "\\U" + Hex(c as int, 8)
  }

  /** Reads one such character back. */
  function UnquoteChar(s: string): Option<(char, string)> {
    if s == "" then None
    else if s[0] != '\\' then Some((s[0], s[1..]))
    else if |s| < 2 then None
    else match s[1]
      case 'a' => Some(('\U{07}', s[2..]))
      case 'b' => Some(('\U{08}', s[2..]))
      case 'f' => Some(('\U{0C}', s[2..]))
      case 'n' => Some(('\n', s[2..]))
      case 'r' => Some(('\r', s[2..]))
      case 't' => Some(('\t', s[2..]))
      case 'v' => Some(('\U{0B}', s[2..]))
      case 'x' => ReadHexChar(s[2..], 2)
      case 'u' => ReadHexChar(s[2..], 4)
      case 'U' => ReadHexChar(s[2..], 8)
      case c => Some((c, s[2..]))
  }

  /** A code word of two characters, the first a backslash. */
  lemma TwoCharacters(q: string, rest: string)
    requires |q| == 2
    ensures (q + rest)[0] == q[0] && (q + rest)[1] == q[1] && (q + rest)[2..] == rest
  {
  }

  /** A code word that names the character in hexadecimal. */
  lemma NamedInHex(mark: string, c: char, width: nat, rest: string)
    requires |mark| == 2 && (c as int) < Pow16(width)
    ensures ((mark + Hex(c as int, width)) + rest)[..2] == mark
    ensures ReadHexChar(((mark + Hex(c as int, width)) + rest)[2..], width) == Some((c, rest))
  {
    var h := Hex(c as int, width);
    assert ((mark + h) + rest)[2..] == h + rest;
    ReadHexCharBack(c, width, rest);
  }

  lemma UnquoteBack(printable: char -> bool, c: char, rest: string)
    ensures UnquoteChar(QuoteChar(printable)(c) + rest) == Some((c, rest))
  {
    if c == '"' || c == '\\' {
      TwoCharacters(['\\', c], rest);
    } else if printable(c) {
      assert ([c] + rest)[1..] == rest;
    } else {
      UnquoteBackEscaped(printable, c, rest);
    }
  }

  lemma UnquoteBackEscaped(printable: char -> bool, c: char, rest: string)
    requires c != '"' && c != '\\' && !printable(c)
    ensures UnquoteChar(QuoteChar(printable)(c) + rest) == Some((c, rest))
  {
    var q := QuoteChar(printable)(c);
    if '\U{07}' <= c <= '\r' {
      assert |q| == 2;
      TwoCharacters(q, rest);
    } else {
      UnquoteBackInHex(printable, c, rest);
    }
  }

  lemma UnquoteBackInHex(printable: char -> bool, c: char, rest: string)
    requires c != '"' && c != '\\' && !printable(c) && !('\U{07}' <= c <= '\r')
    ensures UnquoteChar(QuoteChar(printable)(c) + rest) == Some((c, rest))
  {
    hide Hex, ReadHexChar;
    Powers();
    if c < ' ' || c == '\U{7F}' {
      NamedInHex("\\x", c, 2, rest);
    } else if (c as int) < 0x10000 {
      NamedInHex("\\u", c, 4, rest);
    } else {
      NamedInHex("\\U", c, 8, rest);
    }
  }

  lemma Powers()
    ensures Pow16(2) == 0x100 && Pow16(4) == 0x1_0000 && Pow16(8) == 0x1_0000_0000
  {
    assert Pow16(3) == 0x1000;
    assert Pow16(6) == 0x100_0000;
  }

  lemma NoQuoteFirst(printable: char -> bool, c: char)
    ensures QuoteChar(printable)(c) != "" && QuoteChar(printable)(c)[0] != '"'
  {
    hide Hex;
  }

  lemma QuoteDecodes(printable: char -> bool)
    ensures Decodes(QuoteChar(printable), UnquoteChar)
  {
    hide QuoteChar, UnquoteChar;
    forall c
      ensures QuoteChar(printable)(c) != "" && QuoteChar(printable)(c)[0] != '"'
    {
      NoQuoteFirst(printable, c);
    }
    forall c, rest
      ensures UnquoteChar(QuoteChar(printable)(c) + rest) == Some((c, rest))
    {
      UnquoteBack(printable, c, rest);
    }
  }

  function Quote(k: Crypto, s: string): string {
    "\"" + Encode(QuoteChar(k.printable), s) + "\""
  }

  function PartHead(k: Crypto, key: string): string {
    Quote(k, key) + ":" + "\""
  }

  /** "key":"value", both quoted. */
  function Part(k: Crypto, key: string, value: string): string {
    PartHead(k, key) + (Encode(QuoteChar(k.printable), value) + "\"")
  }

  /** The values in the order of the sorted keys. */
  function Fields(r: AuditRow): seq<(string, string)> {
    [("category", r.category), ("created_at", r.created), ("details_json", r.details),
     ("id", r.id), ("level", r.level), ("message", r.message)]
  }

  function Joined(k: Crypto, fields: seq<(string, string)>): string {
    if fields == [] then ""
    else Part(k, fields[0].0, fields[0].1) + (Comma(|fields| > 1) + Joined(k, fields[1..]))
  }

  function Canonical(k: Crypto, r: AuditRow): string {
    "audit_log_v1{" + Joined(k, Fields(r)) + "}"
  }

  lemma JoinedUnfolds(k: Crypto, fields: seq<(string, string)>, i: nat, before: string)
    requires i < |fields|
    ensures before + Joined(k, fields[i..]) ==
            (before + Part(k, fields[i].0, fields[i].1)) + Comma(i + 1 < |fields|) + Joined(k, fields[i + 1..])
  {
    assert fields[i..][1..] == fields[i + 1..];
    var part, comma, rest := Part(k, fields[i].0, fields[i].1), Comma(i + 1 < |fields|), Joined(k, fields[i + 1..]);
    assert Joined(k, fields[i..]) == part + (comma + rest);
    Regroup(before, part, comma, rest);
  }

  lemma SamePrefix(head: string, p: string, q: string)
    requires head + p == head + q
    ensures p == q
  {
    assert p == (head + p)[|head|..] && q == (head + q)[|head|..];
  }

  /** Fills the slice of parts and joins it with commas. */
  method JoinParts(k: Crypto, fields: seq<(string, string)>) returns (joined: string)
    ensures joined == Joined(k, fields)
  {
    joined := "";
    for i := 0 to |fields|
      invariant joined + Joined(k, fields[i..]) == Joined(k, fields)
    {
      JoinedUnfolds(k, fields, i, joined);
      joined := joined + Part(k, fields[i].0, fields[i].1);
      joined := joined + Comma(i + 1 < |fields|);
    }
    assert joined + Joined(k, fields[|fields|..]) == joined;
  }

  const COLUMNS := ["category", "created_at", "details_json", "id", "level", "message"]

  function Columns(r: AuditRow): map<string, string> {
    map["category" := r.category, "created_at" := r.created, "details_json" := r.details, "id" := r.id,
        "level" := r.level, "message" := r.message]
  }

  lemma ColumnsIncrease()
    ensures Increasing(COLUMNS)
  {
    assert "category"[1..] == "ategory" && "created_at"[1..] == "reated_at" && Less("ategory", "reated_at");
    forall i, j | 0 <= i < j < |COLUMNS|
      ensures Less(COLUMNS[i], COLUMNS[j])
    {
      assert j > 1 ==> COLUMNS[i][0] < COLUMNS[j][0];
    }
  }

  lemma SortedColumns(r: AuditRow)
    ensures SortedKeys(Columns(r).Keys) == COLUMNS
  {
    hide SortedKeys;
    ColumnsIncrease();
    assert Covers(COLUMNS, Columns(r).Keys);
    SortedIsUnique(SortedKeys(Columns(r).Keys), COLUMNS, Columns(r).Keys);
  }

  lemma FieldAt(r: AuditRow, i: nat)
    requires i < |COLUMNS|
    ensures |Fields(r)| == |COLUMNS| && COLUMNS[i] in Columns(r)
    ensures Fields(r)[i] == (COLUMNS[i], Columns(r)[COLUMNS[i]])
  {
  }

  lemma FieldsAreTheSortedColumns(r: AuditRow, keys: seq<string>)
    requires keys == SortedKeys(Columns(r).Keys)
    ensures |Fields(r)| == |keys| && forall i :: 0 <= i < |keys| ==> keys[i] in Columns(r)
    ensures forall i :: 0 <= i < |keys| ==> Fields(r)[i] == (keys[i], Columns(r)[keys[i]])
  {
    hide Columns, Fields, SortedKeys;
    SortedColumns(r);
    FieldAt(r, 0);
    forall i | 0 <= i < |keys|
      ensures keys[i] in Columns(r) && Fields(r)[i] == (keys[i], Columns(r)[keys[i]])
    {
      FieldAt(r, i);
    }
  }

  /** The value of every key, in the order of the keys. */
  method LookUp(keys: seq<string>, m: map<string, string>) returns (parts: seq<(string, string)>)
    requires forall i :: 0 <= i < |keys| ==> keys[i] in m
    ensures |parts| == |keys| && forall i :: 0 <= i < |keys| ==> parts[i] == (keys[i], m[keys[i]])
  {
    parts := [];
    for i := 0 to |keys|
      invariant |parts| == i && forall j :: 0 <= j < i ==> parts[j] == (keys[j], m[keys[j]])
    {
      parts := parts + [(keys[i], m[keys[i]])];
    }
  }

  /** Collects the column names in whatever order, sorts them, and looks the values up. */
  method SortedParts(r: AuditRow) returns (parts: seq<(string, string)>)
    ensures parts == Fields(r)
  {
    hide Columns, Fields, SortedKeys;
    var m := Columns(r);
    var keys := CollectSorted(m.Keys);
    FieldsAreTheSortedColumns(r, keys);
    parts := LookUp(keys, m);
  }

  method AuditLogContentCanonical(k: Crypto, r: AuditRow) returns (text: string)
    ensures text == Canonical(k, r)
  {
    hide Fields, Joined;
    var parts := SortedParts(r);
    var joined := JoinParts(k, parts);
    text := "audit_log_v1{" + joined + "}";
  }

  lemma SameFields(a: AuditRow, b: AuditRow)
    requires Fields(a) == Fields(b)
    ensures a.id == b.id && a.category == b.category && a.level == b.level && a.message == b.message
    ensures a.details == b.details && a.created == b.created
  {
    var f, g := Fields(a), Fields(b);
    assert f[0] == g[0] && f[1] == g[1] && f[2] == g[2] && f[3] == g[3] && f[4] == g[4] && f[5] == g[5];
  }

  /** The canonical text determines the six fields. */
  lemma CanonicalIsInjective(k: Crypto, a: AuditRow, b: AuditRow)
    requires Canonical(k, a) == Canonical(k, b)
    ensures a.id == b.id && a.category == b.category && a.level == b.level && a.message == b.message
    ensures a.details == b.details && a.created == b.created
  {
    hide Joined;
    var x, y := Joined(k, Fields(a)), Joined(k, Fields(b));
    var head := "audit_log_v1{";
    assert Canonical(k, a) == head + (x + "}") && Canonical(k, b) == head + (y + "}");
    assert (head + (x + "}"))[|head|..] == x + "}" && (head + (y + "}"))[|head|..] == y + "}";
    assert (x + "}")[..|x|] == x && (y + "}")[..|y|] == y;
    JoinedIsInjective(k, Fields(a), Fields(b));
    SameFields(a, b);
  }

  lemma {:induction false} JoinedIsInjective(k: Crypto, a: seq<(string, string)>, b: seq<(string, string)>)
    requires |a| == |b| && forall i :: 0 <= i < |a| ==> a[i].0 == b[i].0
    requires Joined(k, a) == Joined(k, b)
    ensures a == b
    decreases |a|
  {
    if a != [] {
      var comma := Comma(|a| > 1);
      PartIsSelfDelimiting(k, a[0].0, a[0].1, b[0].1, comma + Joined(k, a[1..]), comma + Joined(k, b[1..]));
      SamePrefix(comma, Joined(k, a[1..]), Joined(k, b[1..]));
      JoinedIsInjective(k, a[1..], b[1..]);
      assert a == [a[0]] + a[1..] && b == [b[0]] + b[1..];
    }
  }

  lemma PartReads(head: string, body: string, rest: string)
    ensures head + (body + "\"") + rest == head + (body + "\"" + rest)
  {
    var quote := "\"";
    assert head + (body + quote) + rest == head + (body + quote + rest);
  }

  lemma PartIsSelfDelimiting(k: Crypto, key: string, v: string, w: string, x: string, y: string)
    requires Part(k, key, v) + x == Part(k, key, w) + y
    ensures v == w && x == y
  {
    var code, head := QuoteChar(k.printable), PartHead(k, key);
    PartReads(head, Encode(code, v), x);
    PartReads(head, Encode(code, w), y);
    SamePrefix(head, Encode(code, v) + "\"" + x, Encode(code, w) + "\"" + y);
    QuoteDecodes(k.printable);
    QuotedIsSelfDelimiting(code, UnquoteChar, v, w, x, y);
  }

  // ------------------------------------------------------------------ the chain

  function ContentHash(k: Crypto, r: AuditRow): string {
    k.hash(Canonical(k, r))
  }

  function ChainInput(prev: string, content: string): string {
    if prev == "" then content else prev + "\n" + content
  }

  predicate Legacy(r: AuditRow) {
    r.chainHash == ""
  }

  /** The row carries the hashes a row after chain hash `prev` must carry. */
  predicate Linked(k: Crypto, prev: string, r: AuditRow) {
    && r.contentHash == ContentHash(k, r)
    && r.prevHash == prev
    && r.chainHash == k.hash(ChainInput(prev, r.contentHash))
  }

  function Head(rows: seq<AuditRow>): string {
    if rows == [] then "" else rows[|rows| - 1].chainHash
  }

  /** A legacy row stands before every chained one; a chained row is linked to the row before it. */
  ghost predicate RowOk(k: Crypto, rows: seq<AuditRow>, i: nat)
    requires i < |rows|
  {
    if Legacy(rows[i]) then Head(rows[..i]) == "" else Linked(k, Head(rows[..i]), rows[i])
  }

  ghost predicate Accepted(k: Crypto, rows: seq<AuditRow>) {
    forall i :: 0 <= i < |rows| ==> RowOk(k, rows, i)
  }

  /** The chained rows of an accepted list, which form its tail. */
  function Chained(rows: seq<AuditRow>): (c: seq<AuditRow>)
    ensures |c| <= |rows|
  {
    if rows == [] || Legacy(rows[|rows| - 1]) then [] else Chained(rows[..|rows| - 1]) + [rows[|rows| - 1]]
  }

  lemma AcceptedPrefix(k: Crypto, rows: seq<AuditRow>, n: nat)
    requires n <= |rows| && Accepted(k, rows)
    ensures Accepted(k, rows[..n])
  {
    forall i | 0 <= i < n
      ensures RowOk(k, rows[..n], i)
    {
      assert rows[..n][..i] == rows[..i];
      assert RowOk(k, rows, i);
    }
  }

  lemma AcceptedSnoc(k: Crypto, rows: seq<AuditRow>, r: AuditRow)
    ensures Accepted(k, rows + [r]) <==>
        Accepted(k, rows) && (if Legacy(r) then Head(rows) == "" else Linked(k, Head(rows), r))
  {
    hide Linked;
    var all, n := rows + [r], |rows|;
    assert all[..n] == rows && all[n] == r;
    if Accepted(k, all) {
      AcceptedPrefix(k, all, n);
      assert RowOk(k, all, n);
    }
    if Accepted(k, rows) {
      forall i | 0 <= i < n
        ensures RowOk(k, all, i) == RowOk(k, rows, i)
      {
        assert all[..i] == rows[..i];
      }
    }
  }

  // ------------------------------------------------------------------ the verifier

  datatype Fault = Gap | ContentMismatch | PrevMismatch | ChainMismatch | Inconsistent

  datatype Report = Report(
    ok: bool, legacyRows: nat, verifiedRows: nat, totalRows: nat, firstBrokenID: Option<string>,
    error: Option<Fault>, headChainHash: string)

  lemma HexIsNotSpace(c: char)
    requires IsHex(c)
    ensures !IsSpace(c) && c != '\n'
  {
    var i :| 0 <= i < 16 && DIGITS[i] == c;
  }

  lemma DigestHasNoSpace(s: string)
    requires IsDigest(s)
    ensures TrimSpace(s) == s && '\n' !in s
  {
    hide IsHex, IsSpace;
    forall i | 0 <= i < |s|
      ensures !IsSpace(s[i]) && s[i] != '\n'
    {
      HexIsNotSpace(s[i]);
    }
  }

  /** The list is good up to row i and not beyond. */
  ghost predicate BreaksAt(k: Crypto, rows: seq<AuditRow>, i: nat) {
    i < |rows| && Accepted(k, rows[..i]) && !Accepted(k, rows[..i + 1])
  }

  /** A report that stops at row i, counts the rows before it and names what is wrong with it. */
  ghost predicate Diagnosed(k: Crypto, rows: seq<AuditRow>, i: nat, rep: Report)
    requires i < |rows|
  {
    && rep.firstBrokenID == Some(rows[i].id) && rep.headChainHash == ""
    && rep.legacyRows + rep.verifiedRows == i && rep.verifiedRows == |Chained(rows[..i])|
    && (rep.error == Some(Gap) <==> Legacy(rows[i]))
    && (rep.error == Some(ContentMismatch) <==> !Legacy(rows[i]) && rows[i].contentHash != ContentHash(k, rows[i]))
    && (rep.error == Some(PrevMismatch) <==>
          && !Legacy(rows[i]) && rows[i].contentHash == ContentHash(k, rows[i])
          && rows[i].prevHash != Head(rows[..i]))
    && rep.error.Some?
  }

  /** The three comparisons made for a chained row, in their order. */
  method CheckRow(k: Crypto, row: AuditRow, expectedPrev: string) returns (fault: Option<Fault>)
    ensures fault.None? <==> Linked(k, expectedPrev, row)
    ensures fault != Some(Gap) && fault != Some(Inconsistent)
    ensures fault == Some(ContentMismatch) <==> row.contentHash != ContentHash(k, row)
    ensures fault == Some(PrevMismatch) <==> row.contentHash == ContentHash(k, row) && row.prevHash != expectedPrev
  {
    var canon := AuditLogContentCanonical(k, row);
    var wantContent := k.hash(canon);
    if wantContent != row.contentHash {
      return Some(ContentMismatch);
    }
    if row.prevHash != expectedPrev {
      return Some(PrevMismatch);
    }
    var chainInput := wantContent;
    if expectedPrev != "" {
      chainInput := expectedPrev + "\n" + wantContent;
    }
    var wantChain := k.hash(chainInput);
    if wantChain != row.chainHash {
      return Some(ChainMismatch);
    }
    return None;
  }

  /** Reports the first row that breaks the chain, or counts legacy and verified rows and returns the head. */
  method VerifyAuditLogChain(k: Crypto, rows: seq<AuditRow>) returns (rep: Report)
    requires WritesDigests(k)
    ensures rep.error.None? <==> Accepted(k, rows)
    ensures rep.ok <==> Accepted(k, rows)
    ensures rep.totalRows == |rows| && rep.error != Some(Inconsistent)
    ensures Accepted(k, rows) ==>
        && rep.legacyRows + rep.verifiedRows == |rows| && rep.verifiedRows == |Chained(rows)|
        && rep.headChainHash == Head(rows) && rep.firstBrokenID.None?
    ensures !Accepted(k, rows) ==> exists i: nat :: BreaksAt(k, rows, i) && Diagnosed(k, rows, i, rep)
  {
    hide Linked, Canonical;
    var expectedPrev, chainStarted := "", false;
    var legacy, verified := 0, 0;
    for i := 0 to |rows|
      invariant Accepted(k, rows[..i])
      invariant expectedPrev == Head(rows[..i]) && (chainStarted <==> expectedPrev != "")
      invariant expectedPrev != "" ==> IsDigest(expectedPrev)
      invariant verified == |Chained(rows[..i])| && legacy + verified == i
      invariant expectedPrev == "" ==> verified == 0
    {
      var row := rows[i];
      assert rows[..i + 1] == rows[..i] + [row];
      AcceptedSnoc(k, rows[..i], row);
      ChainedSnoc(rows[..i], row);
      LinkedWritesDigests(k, expectedPrev, row);
      var fault: Option<Fault> := None;
      if row.chainHash == "" {
        if chainStarted {
          fault := Some(Gap);
        } else {
          legacy := legacy + 1;
        }
      } else {
        chainStarted := true;
        fault := CheckRow(k, row, expectedPrev);
        expectedPrev := row.chainHash;
        verified := verified + 1;
      }
      if fault.Some? {
        RejectedFrom(k, rows, i);
        var good := if row.chainHash == "" then verified else verified - 1;
        return Report(false, legacy, good, |rows|, Some(row.id), fault, "");
      }
    }
    assert rows[..|rows|] == rows;
    if expectedPrev != "" {
      DigestHasNoSpace(expectedPrev);
    }
    var ok := |rows| == 0 || verified > 0 || legacy == |rows|;
    rep := Report(ok, legacy, verified, |rows|, None, None, TrimSpace(expectedPrev));
    if rep.totalRows > 0 && rep.verifiedRows == 0 && rep.legacyRows < rep.totalRows {
      rep := rep.(ok := false, error := Some(Inconsistent));
    }
  }

  lemma LinkedWritesDigests(k: Crypto, prev: string, r: AuditRow)
    requires WritesDigests(k)
    ensures Linked(k, prev, r) ==> IsDigest(r.contentHash) && IsDigest(r.chainHash) && r.chainHash != ""
  {
  }

  lemma ChainedSnoc(rows: seq<AuditRow>, r: AuditRow)
    ensures Chained(rows + [r]) == if Legacy(r) then [] else Chained(rows) + [r]
  {
    assert (rows + [r])[..|rows|] == rows;
  }

  lemma RejectedFrom(k: Crypto, rows: seq<AuditRow>, i: nat)
    requires i < |rows| && Accepted(k, rows[..i]) && !Accepted(k, rows[..i + 1])
    ensures !Accepted(k, rows) && BreaksAt(k, rows, i)
  {
    if Accepted(k, rows) {
      AcceptedPrefix(k, rows, i + 1);
    }
  }

  /** The first n rows are legacy, and the rest is a chain in which every row is linked to its predecessor. */
  ghost predicate LegacyThenChain(k: Crypto, rows: seq<AuditRow>, n: nat) {
    && n <= |rows|
    && (forall i :: 0 <= i < n ==> Legacy(rows[i]))
    && (forall i :: n <= i < |rows| ==>
          !Legacy(rows[i]) && Linked(k, Previous(rows, n, i), rows[i]))
  }

  /** The hash a chained row must point at, when the chain starts at row n. */
  function Previous(rows: seq<AuditRow>, n: nat, i: nat): string
    requires n <= i < |rows|
  {
    if i == n then "" else rows[i - 1].chainHash
  }

  lemma {:induction false} AcceptedSplits(k: Crypto, rows: seq<AuditRow>) returns (n: nat)
    requires Accepted(k, rows)
    ensures LegacyThenChain(k, rows, n)
    decreases |rows|
  {
    if rows == [] {
      n := 0;
    } else {
      var m := |rows| - 1;
      AcceptedPrefix(k, rows, m);
      n := AcceptedSplits(k, rows[..m]);
      assert RowOk(k, rows, m);
      n := SplitGrows(k, rows, n);
    }
  }

  lemma SplitGrows(k: Crypto, rows: seq<AuditRow>, n: nat) returns (n': nat)
    requires rows != [] && LegacyThenChain(k, rows[..|rows| - 1], n) && RowOk(k, rows, |rows| - 1)
    ensures LegacyThenChain(k, rows, n')
  {
    hide Linked;
    var m := |rows| - 1;
    var before, last := rows[..m], rows[m];
    assert rows == before + [last];
    n' := if Legacy(last) then m + 1 else n;
    if Legacy(last) {
      LegacyGrows(k, before, last, n);
    } else {
      ChainGrows(k, before, last, n);
    }
  }

  lemma LegacyGrows(k: Crypto, rows: seq<AuditRow>, last: AuditRow, n: nat)
    requires LegacyThenChain(k, rows, n) && Legacy(last) && Head(rows) == ""
    ensures LegacyThenChain(k, rows + [last], |rows| + 1)
  {
    ChainedTail(k, rows, n);
  }

  lemma ChainedTail(k: Crypto, rows: seq<AuditRow>, n: nat)
    requires LegacyThenChain(k, rows, n)
    ensures Head(rows) == "" <==> n == |rows|
  {
    hide Linked;
    if n == |rows| && rows != [] {
      assert Legacy(rows[n - 1]);
    }
  }

  lemma ChainGrows(k: Crypto, rows: seq<AuditRow>, last: AuditRow, n: nat)
    requires LegacyThenChain(k, rows, n) && !Legacy(last) && Linked(k, Head(rows), last)
    ensures LegacyThenChain(k, rows + [last], n)
  {
    hide Linked, Legacy;
    var all := rows + [last];
    ChainedTail(k, rows, n);
    forall i | n <= i < |all|
      ensures !Legacy(all[i]) && Linked(k, Previous(all, n, i), all[i])
    {
      if i < |rows| {
        assert Previous(all, n, i) == Previous(rows, n, i);
      }
    }
  }

  lemma LegacyThenChainAccepted(k: Crypto, rows: seq<AuditRow>, n: nat)
    requires LegacyThenChain(k, rows, n)
    ensures Accepted(k, rows)
  {
    hide Linked;
    forall i | 0 <= i < |rows|
      ensures RowOk(k, rows, i)
    {
      if i > 0 {
        assert rows[..i][i - 1] == rows[i - 1];
      }
      if i < n {
        assert Legacy(rows[i]);
      } else {
        assert Previous(rows, n, i) == Head(rows[..i]) by {
          assert i == n && n > 0 ==> Legacy(rows[n - 1]);
        }
      }
    }
  }

  /** The hash columns of a chained row: its own content, its predecessor, and the hash over both. */
  predicate RowStands(k: Crypto, rows: seq<AuditRow>, n: nat, i: nat)
    requires n <= i < |rows|
  {
    var r := rows[i];
    && r.chainHash != "" && r.contentHash == k.hash(Canonical(k, r))
    && if i == n then r.prevHash == "" && r.chainHash == k.hash(r.contentHash)
       else r.prevHash == rows[i - 1].chainHash && r.chainHash == k.hash(rows[i - 1].chainHash + "\n" + r.contentHash)
  }

  /** No row before the n-th has a chain hash; from there on every row has what belongs in its hash columns. */
  ghost predicate Stands(k: Crypto, rows: seq<AuditRow>, n: nat) {
    && n <= |rows|
    && (forall i :: 0 <= i < n ==> rows[i].chainHash == "")
    && (forall i :: n <= i < |rows| ==> RowStands(k, rows, n, i))
  }

  lemma RowStandsIff(k: Crypto, rows: seq<AuditRow>, n: nat, i: nat)
    requires n <= i < |rows| && (i > n ==> rows[i - 1].chainHash != "")
    ensures RowStands(k, rows, n, i) <==> !Legacy(rows[i]) && Linked(k, Previous(rows, n, i), rows[i])
  {
    hide Canonical;
  }

  lemma StandsIff(k: Crypto, rows: seq<AuditRow>, n: nat)
    ensures Stands(k, rows, n) <==> LegacyThenChain(k, rows, n)
  {
    hide Canonical, Linked, Previous;
    if n <= |rows| {
      if LegacyThenChain(k, rows, n) {
        forall i | n <= i < |rows|
          ensures RowStands(k, rows, n, i)
        {
          assert i > n ==> !Legacy(rows[i - 1]);
          RowStandsIff(k, rows, n, i);
        }
      }
      if Stands(k, rows, n) {
        forall i | n <= i < |rows|
          ensures Linked(k, Previous(rows, n, i), rows[i]) && !Legacy(rows[i])
        {
          assert i > n ==> RowStands(k, rows, n, i - 1);
          RowStandsIff(k, rows, n, i);
        }
      }
    }
  }

  lemma {:induction false} ChainedCount(k: Crypto, rows: seq<AuditRow>, n: nat)
    requires Stands(k, rows, n)
    ensures |Chained(rows)| == |rows| - n
    decreases |rows|
  {
    hide Canonical;
    if n < |rows| {
      var front := rows[..|rows| - 1];
      assert RowStands(k, rows, n, |rows| - 1);
      forall i | n <= i < |front|
        ensures RowStands(k, front, n, i)
      {
        assert RowStands(k, rows, n, i);
      }
      ChainedCount(k, front, n);
    }
  }

  /** What the verifier accepts: exactly a legacy prefix followed by a linked chain, and how it counts the two. */
  lemma AcceptedIffLegacyThenChain(k: Crypto, rows: seq<AuditRow>)
    ensures Accepted(k, rows) <==> exists n :: LegacyThenChain(k, rows, n)
    ensures Accepted(k, rows) <==> exists n :: Stands(k, rows, n)
    ensures forall n :: Stands(k, rows, n) ==> |Chained(rows)| == |rows| - n
  {
    hide Stands, Chained, LegacyThenChain;
    if Accepted(k, rows) {
      var n := AcceptedSplits(k, rows);
      StandsIff(k, rows, n);
    }
    if n :| LegacyThenChain(k, rows, n) {
      LegacyThenChainAccepted(k, rows, n);
    }
    forall n: nat | Stands(k, rows, n)
      ensures |Chained(rows)| == |rows| - n && Accepted(k, rows)
    {
      StandsIff(k, rows, n);
      LegacyThenChainAccepted(k, rows, n);
      ChainedCount(k, rows, n);
    }
  }
}
