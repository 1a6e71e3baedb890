/**
 * Python `str` operations the package relies on: character classes of
 * its regular expressions, `startswith`, `join`, `split`, `replace`,
 * `strip`, `lower`/`upper` and the decimal conversions of `int()` and
 * `str()`.
 */
module Text {

  // ---------------------------------------------------------------
  // Character classes (`\d`, `\w`, `\s` of Python's `re`)
  // ---------------------------------------------------------------

  predicate IsDigit(c: char) { '0' <= c <= '9' }

  /** `\w`, restricted to ASCII letters, digits and the underscore. */
  predicate IsWordChar(c: char)
  {
    IsDigit(c) || 'a' <= c <= 'z' || 'A' <= c <= 'Z' || c == '_'
  }

  /** `\s` and `str.isspace`: the characters Python treats as whitespace. */
  predicate IsSpace(c: char)
  {
    c == ' ' || '\t' <= c <= '\r' || '\U{1c}' <= c <= '\U{1f}'
    || c == '\U{85}' || c == '\U{a0}' || c == '\U{1680}'
    || '\U{2000}' <= c <= '\U{200a}' || c == '\U{2028}' || c == '\U{2029}'
    || c == '\U{202f}' || c == '\U{205f}' || c == '\U{3000}'
  }

  predicate AllDigits(s: string)
  {
    forall i | 0 <= i < |s| :: IsDigit(s[i])
  }

  // ---------------------------------------------------------------
  // Prefixes, suffixes, occurrences
  // ---------------------------------------------------------------

  predicate StartsWith(s: string, p: string)
  {
    |p| <= |s| && s[..|p|] == p
  }

  predicate EndsWith(s: string, p: string)
  {
    |p| <= |s| && s[|s| - |p|..] == p
  }

  predicate OccursAt(s: string, o: string, i: nat)
  {
    i + |o| <= |s| && s[i..i + |o|] == o
  }

  /**
   * The first position from `from` on where `o` occurs in `s`, or
   * `|s| + 1` when there is none.
   */
  function FindSub(s: string, o: string, from: nat): (k: nat)
    requires from <= |s| + 1
    ensures from <= k <= |s| + 1
    ensures k <= |s| ==> OccursAt(s, o, k)
    ensures forall j: nat | from <= j < k :: !OccursAt(s, o, j)
    ensures k == |s| + 1 ==> forall j: nat | from <= j :: !OccursAt(s, o, j)
    decreases |s| + 1 - from
  {
    if from == |s| + 1 then from
    else if OccursAt(s, o, from) then from
    else FindSub(s, o, from + 1)
  }

  /** Where `$` lets a match end: before a final newline, else the end. */
  function LineEnd(s: string): (e: nat)
    ensures e <= |s|
    ensures e < |s| ==> e == |s| - 1 && s[e] == '\n'
  {
    if 0 < |s| && s[|s| - 1] == '\n' then |s| - 1 else |s|
  }

  /**
   * `(.+)$` matches the whole of `s` from its start: a non-empty line,
   * possibly followed by one final newline that the match leaves in place.
   */
  predicate OneLine(s: string)
  {
    0 < LineEnd(s) && '\n' !in s[..LineEnd(s)]
  }

  /** Start of the longest run of digits ending at `e`. */
  function DigitRunStart(s: string, e: nat): (b: nat)
    requires e <= |s|
    ensures b <= e
    ensures forall k | b <= k < e :: IsDigit(s[k])
    ensures 0 < b ==> !IsDigit(s[b - 1])
    decreases e
  {
    if 0 < e && IsDigit(s[e - 1]) then DigitRunStart(s, e - 1) else e
  }

  /** End of the longest run of digits starting at `b`. */
  function DigitRunEnd(s: string, b: nat): (e: nat)
    requires b <= |s|
    ensures b <= e <= |s|
    ensures forall k | b <= k < e :: IsDigit(s[k])
    ensures e < |s| ==> !IsDigit(s[e])
    decreases |s| - b
  {
    if b < |s| && IsDigit(s[b]) then DigitRunEnd(s, b + 1) else b
  }

  // ---------------------------------------------------------------
  // Decimal numerals: `int(digits)` and `str(n)`
  // ---------------------------------------------------------------

  function DigitValue(c: char): nat
    requires IsDigit(c)
  {
    c as int - '0' as int
  }

  function DigitChar(d: nat): (c: char)
    requires d < 10
    ensures IsDigit(c) && DigitValue(c) == d
  {
    ('0' as int + d) as char
  }

  /** The value of a decimal numeral, as `int(s)` computes it for digit strings. */
  function DigitsValue(s: string): nat
    requires AllDigits(s)
    decreases |s|
  {
    if s == [] then 0 else DigitsValue(s[..|s| - 1]) * 10 + DigitValue(s[|s| - 1])
  }

  /** `str(n)` for a non-negative integer. */
  function NatToString(n: nat): (s: string)
    ensures 1 <= |s| && AllDigits(s)
    decreases n
  {
    if n < 10 then [DigitChar(n)] else NatToString(n / 10) + [DigitChar(n % 10)]
  }

  /** `int(str(n)) == n`. */
  lemma {:induction false} DigitsValueOfNatToString(n: nat)
    ensures DigitsValue(NatToString(n)) == n
    decreases n
  {
    var s := NatToString(n);
    if n >= 10 {
      DigitsValueOfNatToString(n / 10);
      assert s[..|s| - 1] == NatToString(n / 10);
    }
  }

  /** The last digit of `str(n)` is `n % 10`. */
  lemma LastDigitOfNatToString(n: nat)
    ensures NatToString(n)[|NatToString(n)| - 1] == DigitChar(n % 10)
  {
  }

  /** `str(i)` for any integer. */
  function IntToString(i: int): (s: string)
    ensures 1 <= |s|
  {
    if i < 0 then "-" + NatToString(-i) else NatToString(i)
  }

  // ---------------------------------------------------------------
  // join / split
  // ---------------------------------------------------------------

  /** `sep.join(parts)`. */
  function Join(sep: string, parts: seq<string>): string
    decreases |parts|
  {
    if |parts| == 0 then ""
    else if |parts| == 1 then parts[0]
    else parts[0] + sep + Join(sep, parts[1..])
  }

  /** Index of the first `c` in `s`, or `|s|` when there is none. */
  function IndexOf(s: string, c: char): (i: nat)
    ensures i <= |s|
    ensures i < |s| ==> s[i] == c
    ensures forall k | 0 <= k < i :: s[k] != c
    decreases |s|
  {
    if |s| == 0 then 0
    else if s[0] == c then 0
    else 1 + IndexOf(s[1..], c)
  }

  /** `s.split(c)` for a one-character separator. */
  function Split(s: string, c: char): (parts: seq<string>)
    ensures 1 <= |parts|
    ensures forall k | 0 <= k < |parts| :: c !in parts[k]
    decreases |s|
  {
    var i := IndexOf(s, c);
    if i == |s| then [s] else [s[..i]] + Split(s[i + 1..], c)
  }

  /** Splitting and joining with the same separator gives the text back. */
  lemma {:induction false} JoinSplit(s: string, c: char)
    ensures Join([c], Split(s, c)) == s
    decreases |s|
  {
    var i := IndexOf(s, c);
    if i < |s| {
      var rest := Split(s[i + 1..], c);
      JoinSplit(s[i + 1..], c);
      assert Split(s, c) == [s[..i]] + rest;
      assert s == s[..i] + [c] + s[i + 1..];
    }
  }

  /** The first `c` of `p + r` is the first of `p` when `p` has one. */
  lemma IndexOfAppend(p: string, r: string, c: char)
    ensures c in p ==> IndexOf(p + r, c) == IndexOf(p, c)
    ensures c !in p && c in r ==> IndexOf(p + r, c) == |p| + IndexOf(r, c)
  {
    var s := p + r;
    if c in p {
      var i := IndexOf(p, c);
      assert s[i] == c;
      assert forall k | 0 <= k < i :: s[k] == p[k];
    } else if c in r {
      var i := IndexOf(r, c);
      assert s[|p| + i] == c;
      assert forall k | 0 <= k < |p| + i :: s[k] != c by {
        forall k | 0 <= k < |p| + i ensures s[k] != c {
          if k < |p| { assert s[k] == p[k]; } else { assert s[k] == r[k - |p|]; }
        }
      }
    }
  }

  /** A text without the separator is a single part. */
  lemma SplitNone(s: string, c: char)
    requires c !in s
    ensures Split(s, c) == [s]
  {
    assert IndexOf(s, c) == |s|;
  }

  /** A first part free of the separator, then the separator: the part comes first. */
  lemma SplitLeading(a: string, r: string, c: char)
    requires c !in a
    ensures Split(a + [c] + r, c) == [a] + Split(r, c)
  {
    var s := a + [c] + r;
    assert s == a + ([c] + r);
    assert IndexOf([c] + r, c) == 0;
    IndexOfAppend(a, [c] + r, c);
    assert s[..|a|] == a && s[|a| + 1..] == r;
  }

  /** Splitting at a last separator: the text after it is the last part. */
  lemma {:induction false} SplitAtLast(p: string, q: string, c: char)
    requires c !in q
    ensures Split(p + [c] + q, c) == Split(p, c) + [q]
    decreases |p|
  {
    if c in p {
      var i := IndexOf(p, c);
      var head, tail := p[..i], p[i + 1..];
      assert p == head + [c] + tail;
      assert c !in head by {
        forall k | 0 <= k < |head| ensures head[k] != c {
          assert head[k] == p[k];
        }
      }
      assert p + [c] + q == head + [c] + (tail + [c] + q);
      SplitLeading(head, tail + [c] + q, c);
      SplitLeading(head, tail, c);
      SplitAtLast(tail, q, c);
      assert [head] + (Split(tail, c) + [q]) == [head] + Split(tail, c) + [q];
    } else {
      SplitLeading(p, q, c);
      SplitNone(p, c);
      SplitNone(q, c);
    }
  }

  // ---------------------------------------------------------------
  // replace
  // ---------------------------------------------------------------

  /** `s.replace(a, b)` for single characters. */
  function ReplaceChar(s: string, a: char, b: char): (r: string)
    ensures |r| == |s|
    ensures forall i | 0 <= i < |s| :: r[i] == (if s[i] == a then b else s[i])
  {
    if |s| == 0 then [] else [if s[0] == a then b else s[0]] + ReplaceChar(s[1..], a, b)
  }

  /** Replacing works character by character, so it distributes over concatenation. */
  lemma {:induction false} ReplaceCharAppend(x: string, y: string, a: char, b: char)
    ensures ReplaceChar(x + y, a, b) == ReplaceChar(x, a, b) + ReplaceChar(y, a, b)
    decreases |x|
  {
    if x == [] {
      assert x + y == y;
    } else {
      assert (x + y)[0] == x[0] && (x + y)[1..] == x[1..] + y;
      ReplaceCharAppend(x[1..], y, a, b);
    }
  }

  /** Replacing `a` by a character neither text holds loses nothing: equal results mean equal texts. */
  lemma ReplaceCharInjective(s: string, t: string, a: char, b: char)
    requires b !in s && b !in t
    requires ReplaceChar(s, a, b) == ReplaceChar(t, a, b)
    ensures s == t
  {
    var r := ReplaceChar(s, a, b);
    forall i | 0 <= i < |s| ensures s[i] == t[i] {
      assert r[i] == (if s[i] == a then b else s[i]);
      assert r[i] == (if t[i] == a then b else t[i]);
      assert s[i] != b && t[i] != b;
    }
  }

  /** `s.replace(o, n)`: leftmost, non-overlapping occurrences of `o`. */
  function ReplaceAll(s: string, o: string, n: string): string
    requires 0 < |o|
    decreases |s|
  {
    if |s| < |o| then s
    else if s[..|o|] == o then n + ReplaceAll(s[|o|..], o, n)
    else [s[0]] + ReplaceAll(s[1..], o, n)
  }

  /** Text without any occurrence of `o` is left alone. */
  lemma {:induction false} ReplaceAllAbsent(s: string, o: string, n: string)
    requires 0 < |o|
    requires forall i: nat | i < |s| :: !OccursAt(s, o, i)
    ensures ReplaceAll(s, o, n) == s
    decreases |s|
  {
    if |s| >= |o| {
      assert !OccursAt(s, o, 0);
      forall i: nat | i < |s[1..]|
        ensures !OccursAt(s[1..], o, i)
      {
        assert !OccursAt(s, o, i + 1);
        if i + |o| <= |s[1..]| {
          assert s[1..][i..i + |o|] == s[i + 1..i + 1 + |o|];
        }
      }
      ReplaceAllAbsent(s[1..], o, n);
    }
  }

  /** Dropping the first character shifts every occurrence one place left. */
  lemma OccursAfterFirst(s: string, o: string, i: nat)
    requires 0 < |s|
    ensures OccursAt(s[1..], o, i) == OccursAt(s, o, i + 1)
  {
    if i + |o| <= |s[1..]| {
      assert s[1..][i..i + |o|] == s[i + 1..i + 1 + |o|];
    }
  }

  /** One step of the scan: no occurrence at the start, so the first character is kept. */
  lemma ReplaceAllKeeps(s: string, o: string, n: string)
    requires 0 < |o| < |s| + 1 && !OccursAt(s, o, 0)
    ensures ReplaceAll(s, o, n) == [s[0]] + ReplaceAll(s[1..], o, n)
  {
  }

  /** The first occurrence of `o` is replaced and scanning resumes after it. */
  lemma {:induction false} ReplaceAllFirst(p: string, o: string, q: string, n: string)
    requires 0 < |o|
    requires forall i: nat | i < |p| :: !OccursAt(p + o + q, o, i)
    ensures ReplaceAll(p + o + q, o, n) == p + n + ReplaceAll(q, o, n)
    decreases |p|
  {
    var s := p + o + q;
    if |p| == 0 {
      assert s == o + q;
      ReplaceAllAtStart(o, q, n);
    } else {
      var t := p[1..] + o + q;
      assert s[1..] == t;
      forall i: nat | i < |p[1..]|
        ensures !OccursAt(t, o, i)
      {
        OccursAfterFirst(s, o, i);
      }
      ReplaceAllFirst(p[1..], o, q, n);
      ReplaceAllKeeps(s, o, n);
      ConsAgain(p, n + ReplaceAll(q, o, n));
    }
  }

  /** An occurrence at the very start is replaced first. */
  lemma ReplaceAllAtStart(o: string, q: string, n: string)
    requires 0 < |o|
    ensures ReplaceAll(o + q, o, n) == n + ReplaceAll(q, o, n)
  {
    assert (o + q)[..|o|] == o;
    assert (o + q)[|o|..] == q;
  }

  /** Putting the first character back in front of the rest. */
  lemma ConsAgain(p: string, r: string)
    requires 0 < |p|
    ensures [p[0]] + (p[1..] + r) == p + r
  {
    assert p == [p[0]] + p[1..];
  }

  // ---------------------------------------------------------------
  // Case and whitespace
  // ---------------------------------------------------------------

  function LowerChar(c: char): char
  {
    if 'A' <= c <= 'Z' then (c as int + 32) as char else c
  }

  /**
   * The upper case of a character where it is one ASCII letter: the ASCII
   * letters, the dotless i and the long s. Other characters are kept.
   */
  function UpperChar(c: char): (u: char)
    ensures 'A' <= u <= 'Z' <==> 'A' <= c <= 'Z' || 'a' <= c <= 'z' || c == '\U{131}' || c == '\U{17F}'
  {
    if 'a' <= c <= 'z' then (c as int - 32) as char
    else if c == '\U{131}' then 'I'
    else if c == '\U{17F}' then 'S'
    else c
  }

  /**
   * `s.lower()` on ASCII letters. Of the other characters only the Kelvin
   * sign lowers to an ASCII letter ('k'), and no comparison of this model
   * involves that letter.
   */
  function Lower(s: string): (r: string)
    ensures |r| == |s|
  {
    if |s| == 0 then [] else [LowerChar(s[0])] + Lower(s[1..])
  }

  /**
   * `s.upper()` as far as it yields ASCII letters. The characters whose
   * upper case is several letters (the sharp s, the ligatures) are kept.
   */
  function Upper(s: string): (r: string)
    ensures |r| == |s|
  {
    if |s| == 0 then [] else [UpperChar(s[0])] + Upper(s[1..])
  }

  /** Upper-casing twice is upper-casing once. */
  lemma {:induction false} UpperIdempotent(s: string)
    ensures Upper(Upper(s)) == Upper(s)
  {
    if |s| > 0 {
      UpperIdempotent(s[1..]);
      assert Upper(s)[1..] == Upper(s[1..]);
    }
  }

  /** Lower-casing first changes nothing once the text is upper-cased. */
  lemma {:induction false} UpperOfLower(s: string)
    ensures Upper(Lower(s)) == Upper(s)
  {
    if |s| > 0 {
      UpperOfLower(s[1..]);
      assert Lower(s)[1..] == Lower(s[1..]);
    }
  }

  function TrimLeft(s: string): string
    decreases |s|
  {
    if 0 < |s| && IsSpace(s[0]) then TrimLeft(s[1..]) else s
  }

  function TrimRight(s: string): string
    decreases |s|
  {
    if 0 < |s| && IsSpace(s[|s| - 1]) then TrimRight(s[..|s| - 1]) else s
  }

  /** `s.strip()`. */
  function Strip(s: string): string
  {
    TrimRight(TrimLeft(s))
  }

  lemma {:induction false} TrimLeftSuffix(s: string)
    ensures |TrimLeft(s)| <= |s| && TrimLeft(s) == s[|s| - |TrimLeft(s)|..]
    decreases |s|
  {
    if 0 < |s| && IsSpace(s[0]) {
      TrimLeftSuffix(s[1..]);
    }
  }

  lemma {:induction false} TrimRightPrefix(s: string)
    ensures |TrimRight(s)| <= |s| && TrimRight(s) == s[..|TrimRight(s)|]
    decreases |s|
  {
    if 0 < |s| && IsSpace(s[|s| - 1]) {
      TrimRightPrefix(s[..|s| - 1]);
    }
  }

  /** Stripping only removes characters. */
  lemma StripKeeps(s: string, c: char)
    requires c !in s
    ensures c !in Strip(s)
  {
    TrimLeftSuffix(s);
    var l := TrimLeft(s);
    TrimRightPrefix(l);
    assert c !in l;
  }
}
