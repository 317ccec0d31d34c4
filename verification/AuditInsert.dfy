/** The writer of the audit log, InsertAuditLog with the escaping it relies on (internal/db/db.go). */
module AuditInsert {
  import opened AuditChain
  import opened Lists

  // ------------------------------------------------------------------ escaping

  const MAX_FIELD_LENGTH := 4096

  function Utf8Width(c: char): nat {
    if c < '\U{80}' then 1 else if c < '\U{800}' then 2 else if (c as int) < 0x10000 then 3 else 4
  }

  /** len(v) of a Go string, in bytes. */
  function ByteLength(v: string): (n: nat)
    ensures |v| <= n <= 4 * |v|
  {
    if v == "" then 0 else Utf8Width(v[0]) + ByteLength(v[1..])
  }

  /** Bytes add up: one below U+0080, two below U+0800, three below U+10000, four for the rest. */
  lemma {:induction false} BytesAddUp(a: string, b: string, c: char)
    ensures ByteLength(a + b) == ByteLength(a) + ByteLength(b)
    ensures ByteLength([c]) ==
      (if (c as int) >= 0x10000 then 4 else if (c as int) >= 0x800 then 3 else if (c as int) >= 0x80 then 2 else 1)
    decreases |a|
  {
    if a == "" {
      assert a + b == b;
    } else {
      assert (a + b)[1..] == a[1..] + b;
      BytesAddUp(a[1..], b, c);
    }
  }

  predicate ValidInput(v: string) {
    ByteLength(v) <= MAX_FIELD_LENGTH && '\0' !in v
  }

  function Doubled(v: string): string {
    if v == "" then "" else (if v[0] == '\'' then "''" else [v[0]]) + Doubled(v[1..])
  }

  lemma DoubledStep(text: string, v: string, i: nat)
    requires i < |v|
    ensures text + Doubled(v[i..]) == (text + if v[i] == '\'' then "''" else [v[i]]) + Doubled(v[i + 1..])
  {
    assert v[i..][1..] == v[i + 1..];
    var word, rest := if v[i] == '\'' then "''" else [v[i]], Doubled(v[i + 1..]);
    assert text + (word + rest) == (text + word) + rest;
  }

  /** ReplaceAll from the left: every single quote becomes two. */
  method ValidateSQLInput(v: string) returns (sanitized: Option<string>)
    ensures sanitized == if ValidInput(v) then Some(Doubled(v)) else None
    ensures sanitized.Some? <==> ByteLength(v) <= 4096 && '\0' !in v
  {
    if ByteLength(v) > MAX_FIELD_LENGTH || '\0' in v {
      return None;
    }
    var text := "";
    for i := 0 to |v|
      invariant text + Doubled(v[i..]) == Doubled(v)
    {
      var word := if v[i] == '\'' then "''" else [v[i]];
      DoubledStep(text, v, i);
      text := text + word;
    }
    assert text + Doubled(v[|v|..]) == text;
    return Some(text);
  }

  method EscString(v: string) returns (text: string)
    ensures text == Doubled(Stored(v))
  {
    var sanitized := ValidateSQLInput(v);
    text := sanitized.GetOr("");
  }

  /** A SQL literal read from after its opening quote: its value and the text after its closing quote. */
  function ReadLiteral(s: string): Option<(string, string)>
    decreases |s|
  {
    if s == "" then None
    else if s[0] != '\'' then
      match ReadLiteral(s[1..])
      case Some((value, rest)) => Some(([s[0]] + value, rest))
      case None => None
    else if |s| > 1 && s[1] == '\'' then
      match ReadLiteral(s[2..])
      case Some((value, rest)) => Some(("'" + value, rest))
      case None => None
    else Some(("", s[1..]))
  }

  /** The database reads the escaped text back as the very string, and stops at the quote that closes it. */
  lemma {:induction false} LiteralReadsBack(v: string, rest: string)
    requires rest == "" || rest[0] != '\''
    ensures ReadLiteral(Doubled(v) + "'" + rest) == Some((v, rest))
    decreases |v|
  {
    if v == "" {
      assert Doubled(v) + "'" + rest == "'" + rest;
    } else {
      LiteralReadsBack(v[1..], rest);
      var tail := Doubled(v[1..]) + "'" + rest;
      var word := if v[0] == '\'' then "''" else [v[0]];
      assert Doubled(v) + "'" + rest == word + tail;
      assert (word + tail)[|word|..] == tail;
      assert [v[0]] + v[1..] == v;
    }
  }

  /** What reaches the table: a value the validator refuses is stored as the empty string. */
  function Stored(v: string): (s: string)
    ensures s == v <==> ValidInput(v)
    ensures !ValidInput(v) ==> s == ""
  {
    if ValidInput(v) then v else ""
  }

  // ------------------------------------------------------------------ writing a row

  /** The arguments of one call; `details` is None when they cannot be marshalled. */
  datatype Entry = Entry(
    id: string, category: string, level: string, message: string, details: Option<string>, created: string)

  /** What became of a write: it reports an error when it was not made, and may report one although it was. */
  datatype Write = Made | NotMade | MadeWithError

  /** What becomes of the four statements of one call. */
  datatype Faults = Faults(read: bool, insert: Write, rowId: bool, update: Write)

  const NO_FAULTS := Faults(false, Made, false, Made)

  /** The row over which the hashes are computed: the arguments as they came. */
  function Raw(e: Entry): AuditRow {
    AuditRow(e.id, e.category, e.level, e.message, e.details.GetOr("{}"), e.created, "", "", "")
  }

  /** The row the INSERT statement stores, with its hash columns still NULL. */
  function Unchained(e: Entry): AuditRow {
    var r := Raw(e);
    AuditRow(e.id, Stored(r.category), Stored(r.level), Stored(r.message), Stored(r.details), Stored(r.created),
             "", "", "")
  }

  function WithHashes(k: Crypto, prev: string, content: string, r: AuditRow): AuditRow {
    r.(prevHash := prev, contentHash := content, chainHash := k.hash(ChainInput(prev, content)))
  }

  /** The row is inserted and its hash columns are not written. */
  predicate StaysUnchained(f: Faults) {
    !f.insert.NotMade? && (f.insert.MadeWithError? || f.rowId || f.update.NotMade?)
  }

  function After(k: Crypto, rows: seq<AuditRow>, e: Entry, f: Faults): seq<AuditRow> {
    if f.insert.NotMade? then rows
    else if StaysUnchained(f) then rows + [Unchained(e)]
    else rows + [WithHashes(k, if f.read then "" else Head(rows), ContentHash(k, Raw(e)), Unchained(e))]
  }

  class AuditStore {
    var rows: seq<AuditRow>

    constructor ()
      ensures rows == []
    {
      rows := [];
    }

    /** The error of the first statement is dropped, so a failed read continues with an empty predecessor hash. */
    method InsertAuditLog(k: Crypto, e: Entry, f: Faults) returns (ok: bool)
      requires WritesDigests(k)
      modifies this
      ensures rows == After(k, old(rows), e, f)
      ensures ok <==> f.insert.Made? && !f.rowId && f.update.Made?
    {
      hide Canonical;
      var detailJSON := e.details.GetOr("{}");
      var prevChain := "";
      if !f.read && rows != [] {
        prevChain := rows[|rows| - 1].chainHash;
      }
      if f.insert.NotMade? {
        return false;
      }
      rows := rows + [AuditRow(e.id, Stored(e.category), Stored(e.level), Stored(e.message), Stored(detailJSON),
                               Stored(e.created), "", "", "")];
      if f.insert.MadeWithError? || f.rowId {
        return false;
      }
      var canon := AuditLogContentCanonical(
        k, AuditRow(e.id, e.category, e.level, e.message, detailJSON, e.created, "", "", ""));
      var contentHash := k.hash(canon);
      var chainInput := contentHash;
      if prevChain != "" {
        chainInput := prevChain + "\n" + contentHash;
      }
      if f.update.NotMade? {
        return false;
      }
      var last := |rows| - 1;
      var hashed := rows[last].(prevHash := prevChain, contentHash := contentHash, chainHash := k.hash(chainInput));
      rows := rows[..last] + [hashed];
      return f.update.Made?;
    }
  }

  // ------------------------------------------------------------------ when the verifier accepts what was written

  predicate Survives(e: Entry) {
    ValidInput(e.category) && ValidInput(e.level) && ValidInput(e.message)
    && ValidInput(e.details.GetOr("{}")) && ValidInput(e.created)
  }

  /** The stored row hashes like the arguments although its text differs. */
  ghost predicate Clash(k: Crypto, e: Entry) {
    Canonical(k, Raw(e)) != Canonical(k, Unchained(e)) && ContentHash(k, Raw(e)) == ContentHash(k, Unchained(e))
  }

  /** The fields survive, or a collision hides that they did not. */
  lemma ContentKeptIff(k: Crypto, e: Entry)
    ensures ContentHash(k, Raw(e)) == ContentHash(k, Unchained(e)) <==> Survives(e) || Clash(k, e)
    ensures Survives(e) ==> !Clash(k, e)
  {
    hide Canonical;
    assert Survives(e) <==> Raw(e) == Unchained(e);
    if Canonical(k, Raw(e)) == Canonical(k, Unchained(e)) {
      CanonicalIsInjective(k, Raw(e), Unchained(e));
    }
  }

  lemma HashesIgnoreHashes(k: Crypto, prev: string, content: string, r: AuditRow)
    ensures Canonical(k, WithHashes(k, prev, content, r)) == Canonical(k, r)
  {
    assert Fields(WithHashes(k, prev, content, r)) == Fields(r);
  }

  /** The verdict after one call, fault by fault, on a table that was accepted before it. */
  lemma AcceptedAfterInsertIff(k: Crypto, rows: seq<AuditRow>, e: Entry, f: Faults)
    requires WritesDigests(k) && Accepted(k, rows)
    ensures Accepted(k, After(k, rows, e, f)) <==>
        || f.insert.NotMade?
        || (StaysUnchained(f) && Head(rows) == "")
        || (!StaysUnchained(f) && (!f.read || Head(rows) == "") && (Survives(e) || Clash(k, e)))
  {
    hide Canonical, Clash, Survives;
    if !f.insert.NotMade? {
      if StaysUnchained(f) {
        AcceptedSnoc(k, rows, Unchained(e));
      } else {
        var prev, content := if f.read then "" else Head(rows), ContentHash(k, Raw(e));
        var r := WithHashes(k, prev, content, Unchained(e));
        HashesIgnoreHashes(k, prev, content, Unchained(e));
        ContentKeptIff(k, e);
        DigestNotEmpty(k, ChainInput(prev, content));
        AcceptedSnoc(k, rows, r);
      }
    }
  }

  lemma DigestNotEmpty(k: Crypto, x: string)
    requires WritesDigests(k)
    ensures k.hash(x) != ""
  {
    assert IsDigest(k.hash(x));
  }

  /** What a call without faults adds to the table: every argument in its column, the hashes over what is stored. */
  lemma CallStores(k: Crypto, rows: seq<AuditRow>, e: Entry)
    requires ValidInput(e.category) && ValidInput(e.level) && ValidInput(e.message) && ValidInput(e.created)
    requires e.details.None? || ValidInput(e.details.value)
    ensures var details := if e.details.None? then "{}" else e.details.value;
      var prev := if rows == [] then "" else rows[|rows| - 1].chainHash;
      var plain := AuditRow(e.id, e.category, e.level, e.message, details, e.created, "", "", "");
      var content := k.hash(Canonical(k, plain));
      After(k, rows, e, NO_FAULTS) ==
      rows + [plain.(prevHash := prev, contentHash := content,
                     chainHash := k.hash(if prev == "" then content else prev + "\n" + content))]
  {
    hide Canonical;
    assert ValidInput("{}");
  }

  /** A run of calls none of whose statements fails. */
  function Written(k: Crypto, rows: seq<AuditRow>, entries: seq<Entry>): seq<AuditRow>
    decreases |entries|
  {
    if entries == [] then rows else Written(k, After(k, rows, entries[0], NO_FAULTS), entries[1..])
  }

  ghost predicate AllKept(k: Crypto, entries: seq<Entry>) {
    forall e :: e in entries ==> Survives(e) || Clash(k, e)
  }

  lemma {:induction false} WrittenExtends(k: Crypto, rows: seq<AuditRow>, entries: seq<Entry>)
    ensures |Written(k, rows, entries)| == |rows| + |entries| && Written(k, rows, entries)[..|rows|] == rows
    decreases |entries|
  {
    hide Canonical;
    if entries != [] {
      var next := After(k, rows, entries[0], NO_FAULTS);
      WrittenExtends(k, next, entries[1..]);
      assert next[..|rows|] == rows;
      assert Written(k, rows, entries)[..|next|][..|rows|] == next[..|rows|];
    }
  }

  /** A table that was accepted is accepted after a run of calls exactly when every field of every call survives. */
  lemma {:induction false} RunAcceptedIff(k: Crypto, rows: seq<AuditRow>, entries: seq<Entry>)
    requires WritesDigests(k) && Accepted(k, rows)
    ensures Accepted(k, Written(k, rows, entries)) <==> AllKept(k, entries)
    decreases |entries|
  {
    hide Canonical, Clash, Survives, Accepted, WithHashes;
    if entries != [] {
      var next := After(k, rows, entries[0], NO_FAULTS);
      AcceptedAfterInsertIff(k, rows, entries[0], NO_FAULTS);
      assert entries == [entries[0]] + entries[1..];
      if Accepted(k, next) {
        RunAcceptedIff(k, next, entries[1..]);
      } else {
        WrittenExtends(k, next, entries[1..]);
        if Accepted(k, Written(k, next, entries[1..])) {
          AcceptedPrefix(k, Written(k, next, entries[1..]), |next|);
        }
      }
    }
  }

  /** After a message of 4097 characters, written without fault, the log is rejected unless a collision hides it. */
  lemma LongMessageBreaksTheChain(k: Crypto, e: Entry, later: seq<Entry>)
    requires WritesDigests(k) && |e.message| > MAX_FIELD_LENGTH
    ensures Accepted(k, Written(k, [], [e] + later)) ==> Clash(k, e)
  {
    RunAcceptedIff(k, [], [e] + later);
    assert e in [e] + later;
  }
}
