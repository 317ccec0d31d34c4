/** Strings: the byte order of Go as code-point order, hexadecimal, and character-wise escaping. */
module Text {
  import opened Lists

  // ------------------------------------------------------------------ order

  /** Lexicographic order. On valid UTF-8 the order by code point is the order by byte. */
  predicate Less(a: string, b: string)
    decreases |a|
  {
    b != "" && (a == "" || a[0] < b[0] || (a[0] == b[0] && Less(a[1..], b[1..])))
  }

  lemma {:induction false} LessTotal(a: string, b: string)
    ensures a == b || Less(a, b) || Less(b, a)
    ensures !(Less(a, b) && Less(b, a)) && (a == b ==> !Less(a, b))
    decreases |a|
  {
    if a != "" && b != "" {
      assert a == [a[0]] + a[1..] && b == [b[0]] + b[1..];
      LessTotal(a[1..], b[1..]);
    }
  }

  lemma {:induction false} LessTransitive(a: string, b: string, c: string)
    requires Less(a, b) && Less(b, c)
    ensures Less(a, c)
    decreases |a|
  {
    if a != "" && a[0] == b[0] && b[0] == c[0] {
      LessTransitive(a[1..], b[1..], c[1..]);
    }
  }

  /** At n the strings part: a ends there, or has the smaller character. */
  predicate PartAt(a: string, b: string, n: nat) {
    n <= |a| && n < |b| && a[..n] == b[..n] && (n == |a| || a[n] < b[n])
  }

  /** The order is decided by the first difference; a proper prefix comes first. */
  lemma {:induction false} LessMeans(a: string, b: string)
    ensures Less(a, b) <==> exists n: nat :: PartAt(a, b, n)
    decreases |a|
  {
    if b != "" {
      if a == "" || a[0] < b[0] {
        assert PartAt(a, b, 0);
      } else {
        LessMeans(a[1..], b[1..]);
        assert a == [a[0]] + a[1..] && b == [b[0]] + b[1..];
        if n: nat :| a[0] == b[0] && PartAt(a[1..], b[1..], n) {
          assert a[..n + 1] == [a[0]] + a[1..][..n] && b[..n + 1] == [b[0]] + b[1..][..n];
          assert PartAt(a, b, n + 1);
        }
        if n: nat :| PartAt(a, b, n) {
          assert n > 0 && a[0] == a[..n][0] && b[0] == b[..n][0];
          assert a[1..][..n - 1] == a[..n][1..] && b[1..][..n - 1] == b[..n][1..];
          assert PartAt(a[1..], b[1..], n - 1);
        }
      }
    }
  }

  function Greater(a: string, b: string): string {
    if Less(a, b) then b else a
  }

  // ------------------------------------------------------------------ hexadecimal

  const DIGITS := "0123456789abcdef"

  predicate IsHex(c: char) {
    c in DIGITS
  }

  /** `width` hexadecimal digits of n, most significant first. */
  function Hex(n: nat, width: nat): (s: string)
    ensures |s| == width
    ensures forall i :: 0 <= i < width ==> IsHex(s[i])
  {
    if width == 0 then "" else Hex(n / 16, width - 1) + [DIGITS[n % 16]]
  }

  function DigitValue(c: char): nat {
    if '0' <= c <= '9' then (c as int) - ('0' as int)
    else if 'a' <= c <= 'f' then (c as int) - ('a' as int) + 10
    else 0
  }

  function HexValue(s: string): nat {
    if s == "" then 0 else 16 * HexValue(s[..|s| - 1]) + DigitValue(s[|s| - 1])
  }

  function Pow16(w: nat): nat {
    if w == 0 then 1 else 16 * Pow16(w - 1)
  }

  lemma DigitRoundTrip(d: nat)
    requires d < 16
    ensures DigitValue(DIGITS[d]) == d
  {
    assert d == 0 || d == 1 || d == 2 || d == 3 || d == 4 || d == 5 || d == 6 || d == 7
           || d == 8 || d == 9 || d == 10 || d == 11 || d == 12 || d == 13 || d == 14 || d == 15;
  }

  lemma {:induction false} HexRoundTrip(n: nat, width: nat)
    requires n < Pow16(width)
    ensures HexValue(Hex(n, width)) == n
  {
    if width > 0 {
      HexRoundTrip(n / 16, width - 1);
      DigitRoundTrip(n % 16);
      assert Hex(n, width)[..width - 1] == Hex(n / 16, width - 1);
    }
  }

  predicate IsScalar(n: nat) {
    n < 0xD800 || 0xE000 <= n < 0x110000
  }

  /** Reads `width` digits that name a character. */
  function ReadHexChar(s: string, width: nat): Option<(char, string)> {
    if |s| < width || !IsScalar(HexValue(s[..width])) then None
    else Some((HexValue(s[..width]) as char, s[width..]))
  }

  lemma ReadHexCharBack(c: char, width: nat, rest: string)
    requires (c as int) < Pow16(width)
    ensures ReadHexChar(Hex(c as int, width) + rest, width) == Some((c, rest))
  {
    var h := Hex(c as int, width);
    HexRoundTrip(c as int, width);
    assert (h + rest)[..width] == h && (h + rest)[width..] == rest;
  }

  // ------------------------------------------------------------------ escaping, character by character

  /** The concatenation of the code words of a string. */
  function Encode(code: char -> string, s: string): string {
    if s == "" then "" else code(s[0]) + Encode(code, s[1..])
  }

  /** `decode` reads any code word back off the front of any text, and no code word begins with a quote. */
  ghost predicate Decodes(code: char -> string, decode: string -> Option<(char, string)>) {
    && (forall c :: code(c) != "" && code(c)[0] != '"')
    && forall c, rest :: decode(code(c) + rest) == Some((c, rest))
  }

  /** A quoted string ends where it ends: equal texts carry equal strings and equal remainders. */
  lemma {:induction false} QuotedIsSelfDelimiting(
    code: char -> string, decode: string -> Option<(char, string)>, a: string, b: string, r: string, r': string)
    requires Decodes(code, decode)
    requires Encode(code, a) + "\"" + r == Encode(code, b) + "\"" + r'
    ensures a == b && r == r'
    decreases |a|
  {
    EmptyIffQuoteFirst(code, a, r);
    EmptyIffQuoteFirst(code, b, r');
    if a == "" {
      assert r == (Encode(code, a) + "\"" + r)[1..] == (Encode(code, b) + "\"" + r')[1..] == r';
    } else {
      var x, y := Encode(code, a[1..]) + "\"" + r, Encode(code, b[1..]) + "\"" + r';
      assert Encode(code, a) + "\"" + r == code(a[0]) + x;
      assert Encode(code, b) + "\"" + r' == code(b[0]) + y;
      assert decode(code(a[0]) + x) == Some((a[0], x));
      assert decode(code(b[0]) + y) == Some((b[0], y));
      QuotedIsSelfDelimiting(code, decode, a[1..], b[1..], r, r');
      assert a == [a[0]] + a[1..] && b == [b[0]] + b[1..];
    }
  }

  lemma EmptyIffQuoteFirst(code: char -> string, s: string, rest: string)
    requires forall c :: code(c) != "" && code(c)[0] != '"'
    ensures s == "" <==> (Encode(code, s) + "\"" + rest)[0] == '"'
  {
    if s != "" {
      assert (Encode(code, s) + "\"" + rest)[0] == code(s[0])[0];
    }
  }

  // ------------------------------------------------------------------ space, commas, concatenation

  predicate IsSpace(c: char) {
    c in " \t\n\r\U{0B}\U{0C}\U{85}\U{A0}\U{1680}\U{2028}\U{2029}\U{202F}\U{205F}\U{3000}"
    || '\U{2000}' <= c <= '\U{200A}'
  }

  /** White space by code point, as unicode.IsSpace has it. */
  lemma SpaceMeans(c: char)
    ensures var n := c as int;
      IsSpace(c) <==>
        || 9 <= n <= 13 || n == 32 || n == 0x85 || n == 0xA0 || n == 0x1680 || 0x2000 <= n <= 0x200A
        || n == 0x2028 || n == 0x2029 || n == 0x202F || n == 0x205F || n == 0x3000
  {
  }

  /** strings.TrimSpace. */
  function TrimSpace(s: string): string
    decreases |s|
  {
    if s == "" then ""
    else if IsSpace(s[0]) then TrimSpace(s[1..])
    else if IsSpace(s[|s| - 1]) then TrimSpace(s[..|s| - 1])
    else s
  }

  predicate AllSpace(s: string) {
    forall i :: 0 <= i < |s| ==> IsSpace(s[i])
  }

  /** What is trimmed is space at both ends, and nothing at the ends of the rest is space. */
  lemma {:induction false} TrimSpaceMeans(s: string) returns (left: string, right: string)
    ensures s == left + TrimSpace(s) + right && AllSpace(left) && AllSpace(right)
    ensures var t := TrimSpace(s); t == "" || (!IsSpace(t[0]) && !IsSpace(t[|t| - 1]))
    decreases |s|
  {
    hide IsSpace, AllSpace, TrimSpace;
    TrimSpaceUnfolds(s);
    var n := |s| - 1;
    if s == "" || (!IsSpace(s[0]) && !IsSpace(s[n])) {
      NothingIsAllSpace();
      left, right := "", "";
    } else if IsSpace(s[0]) {
      var inner;
      inner, right := TrimSpaceMeans(s[1..]);
      left := [s[0]] + inner;
      MoreSpace(s[0], inner, "");
      assert s == [s[0]] + s[1..];
      assert [s[0]] + (inner + TrimSpace(s) + right) == left + TrimSpace(s) + right;
    } else {
      var inner;
      left, inner := TrimSpaceMeans(s[..n]);
      right := inner + [s[n]];
      MoreSpace(s[n], "", inner);
      assert s == s[..n] + [s[n]];
      assert (left + TrimSpace(s) + inner) + [s[n]] == left + TrimSpace(s) + right;
    }
  }

  lemma TrimSpaceUnfolds(s: string)
    ensures var n := |s| - 1;
      && (s == "" || (!IsSpace(s[0]) && !IsSpace(s[n])) ==> TrimSpace(s) == s)
      && (s != "" && IsSpace(s[0]) ==> TrimSpace(s) == TrimSpace(s[1..]))
      && (s != "" && !IsSpace(s[0]) && IsSpace(s[n]) ==> TrimSpace(s) == TrimSpace(s[..n]))
  {
    hide IsSpace;
  }

  lemma NothingIsAllSpace()
    ensures AllSpace("")
  {
  }

  lemma MoreSpace(c: char, before: string, after: string)
    requires IsSpace(c)
    ensures AllSpace(before) ==> AllSpace([c] + before)
    ensures AllSpace(after) ==> AllSpace(after + [c])
  {
    hide IsSpace;
  }

  function Comma(more: bool): string {
    if more then "," else ""
  }

  lemma Regroup(a: string, b: string, c: string, d: string)
    ensures a + (b + (c + d)) == ((a + b) + c) + d
  {
  }
}
