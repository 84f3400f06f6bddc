/** String operations the modelled code takes from its languages' libraries:
    trimming, substring search, decimal rendering of integers. */
module Text {

  /** Kotlin's `Char.isWhitespace()`: Java whitespace plus the Unicode space separators. */
  predicate IsKotlinWhitespace(c: char) {
    || ('\t' <= c <= '\r')
    || ('\U{1C}' <= c <= ' ')
    || c == '\U{A0}' || c == '\U{1680}'
    || ('\U{2000}' <= c <= '\U{200A}')
    || c == '\U{2028}' || c == '\U{2029}' || c == '\U{202F}' || c == '\U{205F}' || c == '\U{3000}'
  }

  /** Python's `str.isspace()` for one character: the Kotlin set plus NEXT LINE (U+0085). */
  predicate IsPythonWhitespace(c: char) {
    IsKotlinWhitespace(c) || c == '\U{85}'
  }

  predicate AllSatisfy(s: string, ws: char -> bool) {
    forall i :: 0 <= i < |s| ==> ws(s[i])
  }

  /** Drops the leading characters that satisfy `ws`. */
  function TrimStart(s: string, ws: char -> bool): (r: string)
    ensures |r| <= |s|
    ensures r == [] || !ws(r[0])
    decreases |s|
  {
    if s != [] && ws(s[0]) then TrimStart(s[1..], ws) else s
  }

  /** What TrimStart drops is a prefix made of whitespace only; what it keeps is the rest. */
  lemma {:induction false} TrimStartSplits(s: string, ws: char -> bool)
    ensures var r := TrimStart(s, ws); r == s[|s| - |r|..] && AllSatisfy(s[..|s| - |r|], ws)
    decreases |s|
  {
    if s != [] && ws(s[0]) {
      TrimStartSplits(s[1..], ws);
      var r := TrimStart(s[1..], ws);
      assert s[1..][..|s| - 1 - |r|] == s[1..|s| - |r|];
    }
  }

  /** Drops the trailing characters that satisfy `ws`. */
  function TrimEnd(s: string, ws: char -> bool): (r: string)
    ensures |r| <= |s|
    ensures r == [] || !ws(r[|r| - 1])
    decreases |s|
  {
    if s != [] && ws(s[|s| - 1]) then TrimEnd(s[..|s| - 1], ws) else s
  }

  /** What TrimEnd drops is a suffix made of whitespace only; what it keeps is the rest. */
  lemma {:induction false} TrimEndSplits(s: string, ws: char -> bool)
    ensures var r := TrimEnd(s, ws); r == s[..|r|] && AllSatisfy(s[|r|..], ws)
    decreases |s|
  {
    if s != [] && ws(s[|s| - 1]) {
      TrimEndSplits(s[..|s| - 1], ws);
      var r := TrimEnd(s[..|s| - 1], ws);
      assert s[..|s| - 1][|r|..] + [s[|s| - 1]] == s[|r|..];
    }
  }

  /** Kotlin's `trim()` and Python's `strip()`, for the library's whitespace predicate `ws`. */
  function Strip(s: string, ws: char -> bool): (r: string)
    ensures |r| <= |s|
    ensures r == [] || (!ws(r[0]) && !ws(r[|r| - 1]))
  {
    var t := TrimStart(s, ws);
    TrimEndSplits(t, ws);
    TrimEnd(t, ws)
  }

  lemma {:induction false} TrimStartOfPadded(a: string, m: string, ws: char -> bool)
    requires AllSatisfy(a, ws)
    requires m == [] || !ws(m[0])
    ensures TrimStart(a + m, ws) == m
    decreases |a|
  {
    if a != [] {
      assert (a + m)[1..] == a[1..] + m;
      TrimStartOfPadded(a[1..], m, ws);
    } else {
      assert a + m == m;
    }
  }

  lemma {:induction false} TrimEndOfPadded(m: string, b: string, ws: char -> bool)
    requires AllSatisfy(b, ws)
    requires m == [] || !ws(m[|m| - 1])
    ensures TrimEnd(m + b, ws) == m
    decreases |b|
  {
    if b != [] {
      assert (m + b)[..|m + b| - 1] == m + b[..|b| - 1];
      TrimEndOfPadded(m, b[..|b| - 1], ws);
    } else {
      assert m + b == m;
    }
  }

  /** Stripping is determined by its result: a string padded on both sides with whitespace
      strips to its core, whenever the core has no whitespace at either end. */
  lemma StripOfPadded(a: string, m: string, b: string, ws: char -> bool)
    requires AllSatisfy(a, ws) && AllSatisfy(b, ws)
    requires m == [] || (!ws(m[0]) && !ws(m[|m| - 1]))
    ensures Strip(a + m + b, ws) == m
  {
    if m == [] {
      assert a + m + b == a + b;
      assert AllSatisfy(a + b, ws);
      TrimStartOfPadded(a + b, [], ws);
      assert a + b + [] == a + b;
      TrimEndOfPadded([], [], ws);
    } else {
      assert a + m + b == a + (m + b);
      TrimStartOfPadded(a, m + b, ws);
      TrimEndOfPadded(m, b, ws);
    }
  }

  /** The stripped string has no whitespace at either end, and stripping again changes nothing. */
  lemma StripIdempotent(s: string, ws: char -> bool)
    ensures var r := Strip(s, ws); r == [] || (!ws(r[0]) && !ws(r[|r| - 1]))
    ensures Strip(Strip(s, ws), ws) == Strip(s, ws)
  {
    var t := TrimStart(s, ws);
    var r := TrimEnd(t, ws);
    TrimEndSplits(t, ws);
    if r != [] {
      assert r[0] == t[0];
      assert !ws(r[0]);
    }
    assert TrimStart(r, ws) == r;
    assert TrimEnd(r, ws) == r;
  }

  /** A string made of whitespace only strips to the empty string, and only such a string does. */
  lemma StripEmptyIffAllWhitespace(s: string, ws: char -> bool)
    ensures Strip(s, ws) == [] <==> AllSatisfy(s, ws)
  {
    var t := TrimStart(s, ws);
    if AllSatisfy(s, ws) {
      assert AllSatisfy([], ws);
      StripOfPadded(s, [], [], ws);
      assert s + [] + [] == s;
    }
    if Strip(s, ws) == [] {
      TrimStartSplits(s, ws);
      TrimEndSplits(t, ws);
      assert AllSatisfy(t, ws);
      assert s == s[..|s| - |t|] + t;
    }
  }

  /** Kotlin's `CharSequence.contains(other)`, Python's `in` on strings. */
  predicate Contains(s: string, t: string)
    decreases |s|
  {
    t <= s || (s != [] && Contains(s[1..], t))
  }

  /** A Kotlin/Python substring occurrence at an explicit offset. */
  lemma {:induction false} ContainsAt(s: string, t: string, i: nat)
    requires i + |t| <= |s| && s[i..i + |t|] == t
    ensures Contains(s, t)
    decreases i
  {
    if i > 0 {
      assert s[1..][i - 1..i - 1 + |t|] == s[i..i + |t|];
      ContainsAt(s[1..], t, i - 1);
    }
  }

  /** `t` occurs in `s` starting at offset `i`. */
  predicate OccursAt(s: string, t: string, i: nat) {
    i + |t| <= |s| && s[i..i + |t|] == t
  }

  /** Contains holds exactly when `t` occurs in `s` at some offset. */
  lemma {:induction false} ContainsIffOccurs(s: string, t: string)
    ensures Contains(s, t) <==> exists i: nat :: OccursAt(s, t, i)
    decreases |s|
  {
    if Contains(s, t) {
      if t <= s {
        assert OccursAt(s, t, 0);
      } else {
        ContainsIffOccurs(s[1..], t);
        var i: nat :| OccursAt(s[1..], t, i);
        assert s[1..][i..i + |t|] == s[i + 1..i + 1 + |t|];
        assert OccursAt(s, t, i + 1);
      }
    }
    if exists i: nat :: OccursAt(s, t, i) {
      var i: nat :| OccursAt(s, t, i);
      ContainsAt(s, t, i);
    }
  }

  function LowerAscii(c: char): char {
    if 'A' <= c <= 'Z' then (c as int + 32) as char else c
  }

  function LowerAsciiString(s: string): (r: string)
    ensures |r| == |s|
    ensures forall i :: 0 <= i < |s| ==> r[i] == LowerAscii(s[i])
  {
    seq(|s|, i requires 0 <= i < |s| => LowerAscii(s[i]))
  }

  /** Kotlin's `contains(other, ignoreCase = true)`, with case folded on ASCII letters. */
  predicate ContainsIgnoreCase(s: string, t: string) {
    Contains(LowerAsciiString(s), LowerAsciiString(t))
  }

  /** `t` occurs in `s` at offset `i` once ASCII case is folded on both sides. */
  predicate FoldedAt(s: string, t: string, i: nat) {
    i + |t| <= |s| && forall j :: 0 <= j < |t| ==> LowerAscii(s[i + j]) == LowerAscii(t[j])
  }

  /** ContainsIgnoreCase holds exactly when `t` occurs in `s` at some offset, letters compared
      without regard to ASCII case. */
  lemma ContainsIgnoreCaseIffFolded(s: string, t: string)
    ensures ContainsIgnoreCase(s, t) <==> exists i: nat :: FoldedAt(s, t, i)
  {
    var ls, lt := LowerAsciiString(s), LowerAsciiString(t);
    ContainsIffOccurs(ls, lt);
    forall i: nat
      ensures OccursAt(ls, lt, i) <==> FoldedAt(s, t, i)
    {
      if i + |t| <= |s| {
        if FoldedAt(s, t, i) {
          assert forall j :: 0 <= j < |t| ==> ls[i..i + |t|][j] == lt[j];
          assert ls[i..i + |t|] == lt;
        }
        if OccursAt(ls, lt, i) {
          forall j | 0 <= j < |t|
            ensures LowerAscii(s[i + j]) == LowerAscii(t[j])
          {
            assert ls[i..i + |t|][j] == lt[j];
          }
        }
      }
    }
  }

  predicate IsDigit(c: char) {
    '0' <= c <= '9'
  }

  function DigitChar(d: nat): (c: char)
    requires d < 10
    ensures IsDigit(c) && DigitValue(c) == d
  {
    "0123456789"[d]
  }

  function DigitValue(c: char): nat {
    if IsDigit(c) then c as int - '0' as int else 0
  }

  /** Decimal digits of `n`, most significant first, without leading zeros. */
  function NatToString(n: nat): (r: string)
    ensures |r| >= 1
    ensures forall i :: 0 <= i < |r| ==> IsDigit(r[i])
    decreases n
  {
    if n < 10 then [DigitChar(n)] else NatToString(n / 10) + [DigitChar(n % 10)]
  }

  /** Kotlin's `Int.toString()` (string templates such as `"$what"`): a '-' then the digits
      for a negative number. */
  function IntToString(i: int): (r: string)
    ensures |r| >= 1
    ensures forall k :: 0 <= k < |r| ==> IsDigit(r[k]) || r[k] == '-'
  {
    if i < 0 then "-" + NatToString(-i) else NatToString(i)
  }

  /** Reads decimal digits back into a number (the inverse of NatToString). */
  function ParseNat(s: string): nat
    decreases |s|
  {
    if s == [] then 0 else ParseNat(s[..|s| - 1]) * 10 + DigitValue(s[|s| - 1])
  }

  function ParseInt(s: string): int {
    if s != [] && s[0] == '-' then 0 - ParseNat(s[1..]) else ParseNat(s)
  }

  lemma {:induction false} NatToStringRoundTrip(n: nat)
    ensures ParseNat(NatToString(n)) == n
    decreases n
  {
    if n >= 10 {
      var s := NatToString(n / 10) + [DigitChar(n % 10)];
      assert s[..|s| - 1] == NatToString(n / 10);
      NatToStringRoundTrip(n / 10);
    }
  }

  /** Rendering an integer in decimal loses nothing: it parses back to the same integer. */
  lemma IntToStringRoundTrip(i: int)
    ensures ParseInt(IntToString(i)) == i
  {
    if i < 0 {
      var d := NatToString(-i);
      assert ("-" + d)[0] == '-' && ("-" + d)[1..] == d;
      NatToStringRoundTrip(-i);
      assert ParseInt("-" + d) == 0 - ParseNat(d);
    } else {
      var d := NatToString(i);
      NatToStringRoundTrip(i);
      assert IsDigit(d[0]);
      assert ParseInt(d) == ParseNat(d);
    }
  }

  /** First index of `c` in `s`, or |s| when `c` does not occur. */
  function IndexOf(s: string, c: char): (k: nat)
    ensures k <= |s|
    ensures k < |s| ==> s[k] == c
    ensures forall j :: 0 <= j < k ==> s[j] != c
    decreases |s|
  {
    if s == [] then 0 else if s[0] == c then 0 else 1 + IndexOf(s[1..], c)
  }
}
