/**
 * The Python string operations the server relies on, written out over
 * `seq<char>`: `startswith`, the `in` substring test, `str.join`,
 * `str.split` on one character, `str.strip`, `str.lower`, `str(int)` and the
 * `<` order on strings.
 */
module Text {

  /** Python's `s.startswith(p)`. */
  predicate StartsWith(s: string, p: string)
  {
    |p| <= |s| && s[..|p|] == p
  }

  /**
   * A string that is too short to reach position `i` of `p`, or whose
   * character at `i` differs from `p[i]`, does not start with `p`.
   */
  lemma Mismatch(s: string, p: string, i: nat)
    requires i < |p| && (|s| <= i || s[i] != p[i])
    ensures !StartsWith(s, p)
  {
  }

  // ---------------------------------------------------------------------------
  // Substrings

  /** Python's `n in h` for two strings. */
  predicate IsSubstring(n: string, h: string)
    decreases |h|
  {
    StartsWith(h, n) || (h != [] && IsSubstring(n, h[1..]))
  }

  /** `n` occurs in `h` at offset `i`. */
  predicate OccursAt(n: string, h: string, i: nat)
  {
    i + |n| <= |h| && h[i..i + |n|] == n
  }

  /** The recursive test agrees with "n occurs at some offset of h". */
  lemma {:induction false} SubstringAt(n: string, h: string)
    ensures IsSubstring(n, h) <==> exists i: nat :: OccursAt(n, h, i)
    decreases |h|
  {
    if h == [] {
      if exists i: nat :: OccursAt(n, h, i) {
        var i: nat :| OccursAt(n, h, i);
        assert n == [] && StartsWith(h, n);
      }
      if IsSubstring(n, h) {
        assert OccursAt(n, h, 0);
      }
    } else {
      SubstringAt(n, h[1..]);
      if IsSubstring(n, h[1..]) {
        var i: nat :| OccursAt(n, h[1..], i);
        assert h[1..][i..i + |n|] == h[i + 1..i + 1 + |n|];
        assert OccursAt(n, h, i + 1);
      }
      if StartsWith(h, n) {
        assert OccursAt(n, h, 0);
      }
      if exists i: nat :: OccursAt(n, h, i) {
        var i: nat :| OccursAt(n, h, i);
        if i == 0 {
          assert StartsWith(h, n);
        } else {
          assert h[1..][i - 1..i - 1 + |n|] == h[i..i + |n|];
          assert OccursAt(n, h[1..], i - 1);
        }
      }
    }
  }

  /** The empty string is a substring of every string. */
  lemma EmptyIsSubstring(h: string)
    ensures IsSubstring("", h)
  {
    assert StartsWith(h, "");
  }

  // ---------------------------------------------------------------------------
  // Join and split

  /** Python's `sep.join(parts)`. */
  function Join(parts: seq<string>, sep: string): string
  {
    if |parts| == 0 then ""
    else if |parts| == 1 then parts[0]
    else parts[0] + sep + Join(parts[1..], sep)
  }

  /** A joined, non-empty list starts with its first part. */
  lemma {:induction false} JoinStartsWithFirst(parts: seq<string>, sep: string)
    requires |parts| > 0
    ensures StartsWith(Join(parts, sep), parts[0])
  {
    if |parts| > 1 {
      var rest := sep + Join(parts[1..], sep);
      assert Join(parts, sep) == parts[0] + rest;
      assert (parts[0] + rest)[..|parts[0]|] == parts[0];
    }
  }

  /** Index of the first `c` in `s`, or `|s|` when there is none. */
  function IndexOf(s: string, c: char): (i: nat)
    ensures i <= |s|
    ensures i < |s| ==> s[i] == c
    ensures forall k :: 0 <= k < i ==> s[k] != c
  {
    if s == [] then 0
    else if s[0] == c then 0
    else 1 + IndexOf(s[1..], c)
  }

  /** Python's `s.split(c)` for a one-character separator `c`. */
  function Split(s: string, c: char): (r: seq<string>)
    ensures |r| >= 1
    ensures forall k :: 0 <= k < |r| ==> c !in r[k]
    decreases |s|
  {
    var i := IndexOf(s, c);
    if i == |s| then [s] else [s[..i]] + Split(s[i + 1..], c)
  }

  /** Joining the pieces of a split with the separator gives back the string. */
  lemma {:induction false} SplitJoin(s: string, c: char)
    ensures Join(Split(s, c), [c]) == s
    decreases |s|
  {
    var i := IndexOf(s, c);
    if i < |s| {
      SplitJoin(s[i + 1..], c);
      var pieces := Split(s, c);
      assert pieces == [s[..i]] + Split(s[i + 1..], c);
      assert pieces[1..] == Split(s[i + 1..], c);
      assert s == s[..i] + [c] + s[i + 1..];
    }
  }

  /** A split has one piece more than the string has separators. */
  lemma {:induction false} SplitCount(s: string, c: char)
    ensures |Split(s, c)| == multiset(s)[c] + 1
    decreases |s|
  {
    var i := IndexOf(s, c);
    if i == |s| {
      assert c !in s;
    } else {
      SplitCount(s[i + 1..], c);
      assert s == s[..i] + [c] + s[i + 1..];
      assert c !in s[..i];
      assert multiset(s) == multiset(s[..i]) + multiset([c]) + multiset(s[i + 1..]);
    }
  }

  // ---------------------------------------------------------------------------
  // Strip

  /** Python's `str.isspace` for one character. */
  predicate IsSpace(ch: char)
  {
    || ch == ' '
    || ('\t' <= ch <= '\r')
    || ('\U{1C}' <= ch <= '\U{1F}')
    || ch == '\U{85}' || ch == '\U{A0}' || ch == '\U{1680}'
    || ('\U{2000}' <= ch <= '\U{200A}')
    || ch == '\U{2028}' || ch == '\U{2029}' || ch == '\U{202F}'
    || ch == '\U{205F}' || ch == '\U{3000}'
  }

  predicate AllSpace(s: string)
  {
    forall k :: 0 <= k < |s| ==> IsSpace(s[k])
  }

  /** The number of whitespace characters that open `s`. */
  function LeadingSpaces(s: string): (n: nat)
    ensures n <= |s|
    ensures forall k :: 0 <= k < n ==> IsSpace(s[k])
    ensures n < |s| ==> !IsSpace(s[n])
    decreases |s|
  {
    if s != [] && IsSpace(s[0]) then 1 + LeadingSpaces(s[1..]) else 0
  }

  /** The number of whitespace characters that close `s`. */
  function TrailingSpaces(s: string): (n: nat)
    ensures n <= |s|
    ensures forall k :: |s| - n <= k < |s| ==> IsSpace(s[k])
    ensures n < |s| ==> !IsSpace(s[|s| - n - 1])
    decreases |s|
  {
    if s != [] && IsSpace(s[|s| - 1]) then 1 + TrailingSpaces(s[..|s| - 1]) else 0
  }

  /** Python's `s.lstrip()`. */
  function StripLeft(s: string): string
  {
    s[LeadingSpaces(s)..]
  }

  /** Python's `s.rstrip()`. */
  function StripRight(s: string): string
  {
    s[..|s| - TrailingSpaces(s)]
  }

  /**
   * Python's `s.strip()`: the slice of `s` left after dropping the whitespace
   * at both ends, so that it neither starts nor ends with whitespace.
   */
  function Strip(s: string): (r: string)
    ensures r != [] ==> !IsSpace(r[0]) && !IsSpace(r[|r| - 1])
    ensures exists i, j :: 0 <= i <= j <= |s| && r == s[i..j] && AllSpace(s[..i]) && AllSpace(s[j..])
  {
    StripIsSlice(s);
    StripRight(StripLeft(s))
  }

  /** `StripRight(StripLeft(s))` is the slice between the whitespace runs at both ends of `s`. */
  lemma StripIsSlice(s: string)
    ensures var r := StripRight(StripLeft(s));
      && (r != [] ==> !IsSpace(r[0]) && !IsSpace(r[|r| - 1]))
      && exists i, j :: 0 <= i <= j <= |s| && r == s[i..j] && AllSpace(s[..i]) && AllSpace(s[j..])
  {
    var i := LeadingSpaces(s);
    var l := s[i..];
    var t := TrailingSpaces(l);
    var j := |s| - t;
    var r := l[..|l| - t];
    assert StripLeft(s) == l && StripRight(l) == r;
    assert r == s[i..j];
    var before := s[..i];
    assert forall k :: 0 <= k < |before| ==> before[k] == s[k];
    var after := s[j..];
    assert forall k :: 0 <= k < |after| ==> after[k] == l[|l| - t + k];
    if r != [] {
      assert r[0] == s[i] && r[|r| - 1] == l[|l| - t - 1];
    }
    assert 0 <= i <= j <= |s| && AllSpace(before) && AllSpace(after);
  }

  // ---------------------------------------------------------------------------
  // Lower case

  /** `str.lower` on one character, for the ASCII letters. */
  function LowerChar(ch: char): char
  {
    if 'A' <= ch <= 'Z' then (ch as int + 32) as char else ch
  }

  /** Python's `s.lower()`, for the ASCII letters. */
  function Lower(s: string): (r: string)
    ensures |r| == |s|
    ensures forall k :: 0 <= k < |s| ==> r[k] == LowerChar(s[k])
  {
    seq(|s|, k requires 0 <= k < |s| => LowerChar(s[k]))
  }

  /** Lower-casing twice is lower-casing once. */
  lemma LowerIdempotent(s: string)
    ensures Lower(Lower(s)) == Lower(s)
  {
    assert forall k :: 0 <= k < |s| ==> LowerChar(LowerChar(s[k])) == LowerChar(s[k]);
  }

  /**
   * A lower-cased string has no upper-case ASCII letter; each upper-case
   * letter of `s` becomes its lower-case partner, and every other character
   * is kept.
   */
  lemma LowerMeaning(s: string)
    ensures forall k :: 0 <= k < |s| ==> !('A' <= Lower(s)[k] <= 'Z')
    ensures forall k :: 0 <= k < |s| && 'A' <= s[k] <= 'Z' ==> Lower(s)[k] as int == s[k] as int + 32 && 'a' <= Lower(s)[k] <= 'z'
    ensures forall k :: 0 <= k < |s| && !('A' <= s[k] <= 'Z') ==> Lower(s)[k] == s[k]
  {
  }

  // ---------------------------------------------------------------------------
  // Decimal numerals

  predicate IsDigit(ch: char)
  {
    '0' <= ch <= '9'
  }

  predicate AllDigits(s: string)
  {
    forall k :: 0 <= k < |s| ==> IsDigit(s[k])
  }

  function DigitValue(ch: char): nat
    requires IsDigit(ch)
  {
    ch as int - '0' as int
  }

  /** The number a string of decimal digits denotes. */
  function DigitsValue(s: string): nat
    requires AllDigits(s)
    decreases |s|
  {
    if s == [] then 0 else 10 * DigitsValue(s[..|s| - 1]) + DigitValue(s[|s| - 1])
  }

  function Digit(d: nat): (ch: char)
    requires d < 10
    ensures IsDigit(ch) && DigitValue(ch) == d
  {
    ('0' as int + d) as char
  }

  /** Python's `str(n)` for a natural number. */
  function NatToString(n: nat): (r: string)
    ensures r != [] && AllDigits(r)
    decreases n
  {
    if n < 10 then [Digit(n)] else NatToString(n / 10) + [Digit(n % 10)]
  }

  /** Reading back the numeral of `n` gives `n`. */
  lemma {:induction false} NatToStringValue(n: nat)
    ensures DigitsValue(NatToString(n)) == n
    decreases n
  {
    if n >= 10 {
      NatToStringValue(n / 10);
      var s := NatToString(n);
      assert s[..|s| - 1] == NatToString(n / 10);
    }
  }

  /** Distinct numbers have distinct numerals. */
  lemma NatToStringInjective(m: nat, n: nat)
    requires NatToString(m) == NatToString(n)
    ensures m == n
  {
    NatToStringValue(m);
    NatToStringValue(n);
  }

  /** Python's `str(i)` for an integer. */
  function IntToString(i: int): string
  {
    if i < 0 then "-" + NatToString(-i) else NatToString(i)
  }

  // ---------------------------------------------------------------------------
  // String order

  /** Python's `a < b` on strings: lexicographic by code point. */
  predicate LexLess(a: string, b: string)
    decreases |a|
  {
    if a == [] then b != []
    else if b == [] then false
    else if a[0] != b[0] then a[0] < b[0]
    else LexLess(a[1..], b[1..])
  }

  /** No string is less than itself, so `a >= a` always holds. */
  lemma {:induction false} LexLessIrreflexive(a: string)
    ensures !LexLess(a, a)
    decreases |a|
  {
    if a != [] {
      LexLessIrreflexive(a[1..]);
    }
  }

  /** Comparing two concatenations whose first parts have equal length. */
  lemma {:induction false} LexLessConcat(p: string, q: string, r: string, s: string)
    requires |p| == |r|
    ensures LexLess(p + q, r + s) <==> LexLess(p, r) || (p == r && LexLess(q, s))
    decreases |p|
  {
    if p == [] {
      assert p + q == q && r + s == s;
    } else {
      assert (p + q)[0] == p[0] && (r + s)[0] == r[0];
      assert (p + q)[1..] == p[1..] + q && (r + s)[1..] == r[1..] + s;
      LexLessConcat(p[1..], q, r[1..], s);
      assert p[0] == r[0] ==> (p == r <==> p[1..] == r[1..]);
    }
  }

  /** On digit strings of equal length, string order is numeric order. */
  lemma {:induction false} DigitsOrder(a: string, b: string)
    requires AllDigits(a) && AllDigits(b) && |a| == |b|
    ensures LexLess(a, b) <==> DigitsValue(a) < DigitsValue(b)
    ensures a == b <==> DigitsValue(a) == DigitsValue(b)
    decreases |a|
  {
    if a != [] {
      var n := |a| - 1;
      DigitsOrder(a[..n], b[..n]);
      assert a == a[..n] + [a[n]] && b == b[..n] + [b[n]];
      LexLessConcat(a[..n], [a[n]], b[..n], [b[n]]);
      assert [a[n]][1..] == [] && [b[n]][1..] == [];
      assert LexLess([a[n]], [b[n]]) <==> a[n] < b[n];
    }
  }

  // ---------------------------------------------------------------------------
  // Selecting lines

  /** The lines that start with `p`, in their order. */
  function Select(lines: seq<string>, p: string): seq<string>
  {
    if lines == [] then []
    else (if StartsWith(lines[0], p) then [lines[0]] else []) + Select(lines[1..], p)
  }

  lemma {:induction false} SelectConcat(a: seq<string>, b: seq<string>, p: string)
    ensures Select(a + b, p) == Select(a, p) + Select(b, p)
  {
    if a != [] {
      assert (a + b)[0] == a[0] && (a + b)[1..] == a[1..] + b;
      SelectConcat(a[1..], b, p);
    } else {
      assert a + b == b;
    }
  }

  lemma SelectOne(l: string, p: string)
    ensures Select([l], p) == if StartsWith(l, p) then [l] else []
  {
    assert [l][1..] == [];
  }

  lemma {:induction false} SelectNone(lines: seq<string>, p: string)
    requires forall k :: 0 <= k < |lines| ==> !StartsWith(lines[k], p)
    ensures Select(lines, p) == []
  {
    if lines != [] {
      SelectNone(lines[1..], p);
    }
  }
}
