/**
 * String helpers that the handlers rely on from Rust's standard library and
 * small crates: `str::trim`, `str::contains`, `to_string` on integers,
 * `str::len` (a UTF-8 byte count), `urlencoding::encode` and `join`.
 */
module Text {

  /** `char::is_whitespace`: the Unicode White_Space property. */
  predicate IsWhitespace(c: char)
  {
    ('\U{9}' <= c <= '\U{D}') || c == ' ' || c == '\U{85}' || c == '\U{A0}' ||
    c == '\U{1680}' || ('\U{2000}' <= c <= '\U{200A}') || c == '\U{2028}' ||
    c == '\U{2029}' || c == '\U{202F}' || c == '\U{205F}' || c == '\U{3000}'
  }

  /** ASCII letters and digits, the alphabet of `rand::distributions::Alphanumeric`. */
  predicate IsAlphanumeric(c: char)
  {
    ('a' <= c <= 'z') || ('A' <= c <= 'Z') || ('0' <= c <= '9')
  }

  predicate AllAlphanumeric(s: string)
  {
    forall i :: 0 <= i < |s| ==> IsAlphanumeric(s[i])
  }

  /** Index of the first character that is not whitespace (|s| when there is none). */
  function TrimStartIndex(s: string): (i: nat)
    ensures i <= |s|
    ensures forall k :: 0 <= k < i ==> IsWhitespace(s[k])
    ensures i < |s| ==> !IsWhitespace(s[i])
  {
    if |s| == 0 || !IsWhitespace(s[0]) then 0
    else
      var j := TrimStartIndex(s[1..]);
      assert forall k :: 1 <= k < j + 1 ==> s[k] == s[1..][k - 1];
      j + 1
  }

  /** Length of `s` once trailing whitespace is removed. */
  function TrimEndIndex(s: string): (j: nat)
    ensures j <= |s|
    ensures forall k :: j <= k < |s| ==> IsWhitespace(s[k])
    ensures j > 0 ==> !IsWhitespace(s[j - 1])
  {
    if |s| == 0 || !IsWhitespace(s[|s| - 1]) then |s|
    else TrimEndIndex(s[..|s| - 1])
  }

  /** `str::trim`. */
  function Trim(s: string): (r: string)
    ensures |r| <= |s|
    ensures r == [] || (!IsWhitespace(r[0]) && !IsWhitespace(r[|r| - 1]))
  {
    var i := TrimStartIndex(s);
    var t := s[i..];
    t[..TrimEndIndex(t)]
  }

  /** Trimming removes only whitespace: what it keeps is a slice of the input
      with whitespace on both sides. */
  lemma TrimKeepsSlice(s: string)
    ensures exists i, j :: (0 <= i <= j <= |s| && Trim(s) == s[i..j] &&
      (forall k :: 0 <= k < i ==> IsWhitespace(s[k])) &&
      (forall k :: j <= k < |s| ==> IsWhitespace(s[k])))
  {
    var i := TrimStartIndex(s);
    var t := s[i..];
    var e := TrimEndIndex(t);
    assert Trim(s) == s[i..i + e];
    forall k | i + e <= k < |s| ensures IsWhitespace(s[k]) {
      assert s[k] == t[k - i];
    }
  }

  /** Trimming twice is trimming once. */
  lemma TrimIdempotent(s: string)
    ensures Trim(Trim(s)) == Trim(s)
  {
    var r := Trim(s);
    assert TrimStartIndex(r) == 0;
    assert TrimEndIndex(r) == |r|;
  }

  predicate AllWhitespace(s: string)
  {
    forall i :: 0 <= i < |s| ==> IsWhitespace(s[i])
  }

  /** Whitespace around a word that neither starts nor ends with whitespace is
      exactly what trimming removes. */
  lemma TrimPadded(before: string, word: string, after: string)
    requires AllWhitespace(before) && AllWhitespace(after)
    requires word != [] ==> !IsWhitespace(word[0]) && !IsWhitespace(word[|word| - 1])
    ensures Trim(before + word + after) == word
  {
    var s := before + word + after;
    var i := TrimStartIndex(s);
    assert forall k :: 0 <= k < |before| ==> s[k] == before[k];
    assert forall k :: |before| + |word| <= k < |s| ==> s[k] == after[k - |before| - |word|];
    if word == [] {
      assert AllWhitespace(s);
      assert i == |s|;
    } else {
      assert s[|before|] == word[0];
      assert i == |before|;
      var t := s[i..];
      assert t == word + after;
      assert t[|word| - 1] == word[|word| - 1];
      assert forall k :: |word| <= k < |t| ==> t[k] == after[k - |word|];
      var j := TrimEndIndex(t);
      assert j == |word|;
      assert t[..j] == word;
    }
  }

  /** `str::contains` with a string pattern. */
  predicate Contains(s: string, pattern: string)
  {
    exists i :: 0 <= i <= |s| - |pattern| && MatchesAt(s, pattern, i)
  }

  predicate MatchesAt(s: string, pattern: string, i: int)
    requires 0 <= i <= |s| - |pattern|
  {
    s[i..i + |pattern|] == pattern
  }

  /** A string contains every piece it is built from. */
  lemma ContainsPiece(before: string, piece: string, after: string)
    ensures Contains(before + piece + after, piece)
  {
    var s := before + piece + after;
    assert s[|before|..|before| + |piece|] == piece;
    assert MatchesAt(s, piece, |before|);
  }

  /** ASCII case folding: the letter comparison of SQL `LIKE` under SQLite
      and MySQL's default collations. */
  function FoldAscii(c: char): (d: char)
    ensures ('A' <= c <= 'Z') == (d != c)
    ensures 'a' <= c <= 'z' ==> d == c
  {
    if 'A' <= c <= 'Z' then (c as int + 32) as char else c
  }

  /** SQL `LIKE` without an escape character: `%` matches any run of
      characters, `_` any one character, and every other pattern character
      matches itself up to ASCII case. */
  predicate Like(s: string, p: string)
    decreases |s| + |p|
  {
    if p == [] then s == []
    else if p[0] == '%' then Like(s, p[1..]) || (s != [] && Like(s[1..], p))
    else s != [] && (p[0] == '_' || FoldAscii(s[0]) == FoldAscii(p[0])) && Like(s[1..], p[1..])
  }

  /** `%` matches any text. */
  lemma {:induction false} LikeAnything(s: string)
    ensures Like(s, "%")
    decreases |s|
  {
    if s != [] {
      LikeAnything(s[1..]);
    }
  }

  /** A text followed by anything matches itself followed by `%`, whatever
      wildcards it holds. */
  lemma {:induction false} LikeItself(v: string, rest: string)
    ensures Like(v + rest, v + "%")
    decreases |v|
  {
    if v == [] {
      assert v + rest == rest && v + "%" == "%";
      LikeAnything(rest);
    } else {
      LikeItself(v[1..], rest);
      assert (v + rest)[1..] == v[1..] + rest;
      assert (v + "%")[1..] == v[1..] + "%";
    }
  }

  /** A leading `%` lets any prefix through. */
  lemma {:induction false} LikeAfterPrefix(a: string, t: string, q: string)
    requires Like(t, "%" + q)
    ensures Like(a + t, "%" + q)
    decreases |a|
  {
    if a != [] {
      LikeAfterPrefix(a[1..], t, q);
      assert (a + t)[1..] == a[1..] + t;
    } else {
      assert a + t == t;
    }
  }

  /** Every text that contains `v` matches `LIKE '%v%'`: the filter keeps at
      least what a substring test keeps. */
  lemma ContainsIsLike(s: string, v: string)
    requires Contains(s, v)
    ensures Like(s, "%" + v + "%")
  {
    var i :| 0 <= i <= |s| - |v| && MatchesAt(s, v, i);
    var rest := s[i + |v|..];
    assert s == s[..i] + (v + rest);
    LikeItself(v, rest);
    assert ("%" + (v + "%"))[1..] == v + "%";
    LikeAfterPrefix(s[..i], v + rest, v + "%");
    assert "%" + v + "%" == "%" + (v + "%");
  }

  /** `LIKE` ignores ASCII case and reads `_` as a wildcard, so it keeps texts
      a substring test drops. */
  lemma LikeBeyondContains()
    ensures Like("boom", "%BOOM%") && !Contains("boom", "BOOM")
    ensures Like("abc", "%a_c%") && !Contains("abc", "a_c")
  {
    assert Like("", "%");
    assert Like("m", "M%");
    assert Like("om", "OM%");
    assert Like("oom", "OOM%");
    assert Like("boom", "BOOM%");
    assert !MatchesAt("boom", "BOOM", 0);
    assert Like("", "%");
    assert Like("c", "c%");
    assert Like("bc", "_c%");
    assert Like("abc", "a_c%");
    assert !MatchesAt("abc", "a_c", 0);
  }

  /** Decimal digits of a natural number, as `u32::to_string` prints them. */
  function NatToString(n: nat): (r: string)
    ensures |r| >= 1
    ensures forall i :: 0 <= i < |r| ==> '0' <= r[i] <= '9'
    ensures |r| > 1 ==> r[0] != '0'
  {
    if n < 10 then [Digit(n)]
    else NatToString(n / 10) + [Digit(n % 10)]
  }

  function Digit(d: nat): (c: char)
    requires d < 10
    ensures '0' <= c <= '9'
  {
    ['0', '1', '2', '3', '4', '5', '6', '7', '8', '9'][d]
  }

  function DigitValue(c: char): (d: nat)
    requires '0' <= c <= '9'
    ensures d < 10 && Digit(d) == c
  {
    (c as int - '0' as int)
  }

  /** Reads back a string of decimal digits. */
  function ParseDecimal(s: string): (n: nat)
    requires forall i :: 0 <= i < |s| ==> '0' <= s[i] <= '9'
  {
    if |s| == 0 then 0
    else ParseDecimal(s[..|s| - 1]) * 10 + DigitValue(s[|s| - 1])
  }

  /** Printing a number in decimal loses nothing: it reads back as the same
      number. So distinct numbers print distinctly. */
  lemma {:induction false} DecimalRoundTrip(n: nat)
    ensures ParseDecimal(NatToString(n)) == n
  {
    if n >= 10 {
      DecimalRoundTrip(n / 10);
      var s := NatToString(n);
      assert s[..|s| - 1] == NatToString(n / 10);
      assert DigitValue(Digit(n % 10)) == n % 10;
    } else {
      assert DigitValue(Digit(n)) == n;
    }
  }

  lemma NatToStringInjective(m: nat, n: nat)
    ensures NatToString(m) == NatToString(n) ==> m == n
  {
    DecimalRoundTrip(m);
    DecimalRoundTrip(n);
  }

  /** Number of bytes of a character in UTF-8. */
  function Utf8Width(c: char): (w: nat)
    ensures 1 <= w <= 4
  {
    if c as int < 0x80 then 1
    else if c as int < 0x800 then 2
    else if c as int < 0x10000 then 3
    else 4
  }

  /** `str::len`: the length of the UTF-8 encoding. */
  function Utf8Len(s: string): (n: nat)
    ensures |s| <= n <= 4 * |s|
  {
    if |s| == 0 then 0 else Utf8Len(s[..|s| - 1]) + Utf8Width(s[|s| - 1])
  }

  /** The UTF-8 encoding of one character. */
  function Utf8Char(c: char): (b: seq<bv8>)
    ensures |b| == Utf8Width(c)
  {
    var n := c as int;
    if n < 0x80 then [n as bv8]
    else if n < 0x800 then [(0xC0 + n / 0x40) as bv8, (0x80 + n % 0x40) as bv8]
    else if n < 0x10000 then
      [(0xE0 + n / 0x1000) as bv8, (0x80 + (n / 0x40) % 0x40) as bv8, (0x80 + n % 0x40) as bv8]
    else
      [(0xF0 + n / 0x40000) as bv8, (0x80 + (n / 0x1000) % 0x40) as bv8,
       (0x80 + (n / 0x40) % 0x40) as bv8, (0x80 + n % 0x40) as bv8]
  }

  function Utf8(s: string): (b: seq<bv8>)
    ensures |b| == Utf8Len(s)
  {
    if |s| == 0 then [] else Utf8(s[..|s| - 1]) + Utf8Char(s[|s| - 1])
  }

  /** Byte values `urlencoding::encode` passes through unchanged. */
  predicate IsUnreservedByte(v: int)
  {
    ('a' as int <= v <= 'z' as int) || ('A' as int <= v <= 'Z' as int) ||
    ('0' as int <= v <= '9' as int) || v == '-' as int || v == '_' as int ||
    v == '.' as int || v == '~' as int
  }

  function HexDigit(d: nat): (c: char)
    requires d < 16
    ensures IsAlphanumeric(c)
  {
    "0123456789ABCDEF"[d]
  }

  /** Characters that can appear in `urlencoding::encode`'s output. */
  predicate IsUrlSafe(c: char)
  {
    IsAlphanumeric(c) || c == '-' || c == '_' || c == '.' || c == '~' || c == '%'
  }

  /** One byte as `urlencoding::encode` writes it. */
  function EncodeByte(b: bv8): (r: string)
    ensures 1 <= |r| <= 3
    ensures forall i :: 0 <= i < |r| ==> IsUrlSafe(r[i])
  {
    var v := b as int;
    if IsUnreservedByte(v) then [v as char]
    else ['%', HexDigit(v / 16), HexDigit(v % 16)]
  }

  function PercentEncodeBytes(b: seq<bv8>): (r: string)
    ensures |b| <= |r| <= 3 * |b|
    ensures forall i :: 0 <= i < |r| ==> IsUrlSafe(r[i])
  {
    if |b| == 0 then ""
    else PercentEncodeBytes(b[..|b| - 1]) + EncodeByte(b[|b| - 1])
  }

  /** `urlencoding::encode`: percent-encodes every UTF-8 byte except ASCII
      letters, digits and `-_.~`. The result never holds a character that
      separates URL components (`&`, `=`, `?`, `/`, `:`, `#`, space). */
  function UrlEncode(s: string): (r: string)
    ensures forall i :: 0 <= i < |r| ==> IsUrlSafe(r[i])
  {
    PercentEncodeBytes(Utf8(s))
  }

  /** Joins the parts with the separator between each pair, as `Vec::join`. */
  function Join(parts: seq<string>, sep: string): (r: string)
    ensures |parts| == 1 ==> r == parts[0]
    ensures |parts| == 0 ==> r == ""
  {
    if |parts| == 0 then ""
    else if |parts| == 1 then parts[0]
    else Join(parts[..|parts| - 1], sep) + sep + parts[|parts| - 1]
  }

  /** Appending a part to a non-empty list appends the separator and it. */
  lemma JoinAppend(parts: seq<string>, part: string, sep: string)
    requires parts != []
    ensures Join(parts + [part], sep) == Join(parts, sep) + sep + part
  {
    assert (parts + [part])[..|parts|] == parts;
  }

  function TotalLength(parts: seq<string>): nat
  {
    if parts == [] then 0 else TotalLength(parts[..|parts| - 1]) + |parts[|parts| - 1]|
  }

  /** The joined text holds every part and one separator between each pair. */
  lemma {:induction false} JoinLength(parts: seq<string>, sep: string)
    requires parts != []
    ensures |Join(parts, sep)| == TotalLength(parts) + (|parts| - 1) * |sep|
  {
    if |parts| > 1 {
      var init := parts[..|parts| - 1];
      JoinLength(init, sep);
      if |init| == 1 {
        assert init[..0] == [];
      }
    } else {
      assert parts[..0] == [];
    }
  }
}
