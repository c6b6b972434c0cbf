/**
 * The parts of java.lang.String and java.lang.StringBuilder that Alert relies on:
 * case-insensitive comparison and equality, `replaceAll` with a literal pattern,
 * the decimal rendering of an int, and appending a possibly-null String.
 */
module JavaString {
  import opened Wrappers

  /** The character fold shared by compareToIgnoreCase and equalsIgnoreCase (ASCII letters only). */
  function Fold(c: char): (f: char)
    ensures !('A' <= f <= 'Z')
    ensures 'A' <= c <= 'Z' ==> f as int == c as int + 32
    ensures 'a' <= c <= 'z' || !('A' <= c <= 'Z') ==> f == c
  {
    if 'A' <= c <= 'Z' then (c as int + 32) as char else c
  }

  /**
   * String.compareToIgnoreCase: the difference of the first pair of folded characters that
   * differ, or the difference of the lengths when one string is a prefix of the other.
   */
  function CompareToIgnoreCase(a: string, b: string): int
  {
    if a == [] || b == [] then |a| - |b|
    else if Fold(a[0]) != Fold(b[0]) then Fold(a[0]) as int - Fold(b[0]) as int
    else CompareToIgnoreCase(a[1..], b[1..])
  }

  /** String.equalsIgnoreCase: same length and equal characters after folding. */
  predicate EqualsIgnoreCase(a: string, b: string)
  {
    |a| == |b| && forall i :: 0 <= i < |a| ==> Fold(a[i]) == Fold(b[i])
  }

  /** Two characters that are the same letter up to ASCII case: equal, or a capital and its small letter. */
  predicate CaseVariants(x: char, y: char)
  {
    x == y || ('A' <= x <= 'Z' && y as int == x as int + 32) || ('A' <= y <= 'Z' && x as int == y as int + 32)
  }

  /**
   * equalsIgnoreCase relates exactly the strings that differ at most in the case of their
   * ASCII letters.
   */
  lemma EqualsIgnoreCaseMeansCaseVariants(a: string, b: string)
    ensures EqualsIgnoreCase(a, b) <==> |a| == |b| && forall i :: 0 <= i < |a| ==> CaseVariants(a[i], b[i])
  {
    if |a| == |b| {
      forall i | 0 <= i < |a| ensures Fold(a[i]) == Fold(b[i]) <==> CaseVariants(a[i], b[i]) {
        var x, y := a[i], b[i];
        if 'A' <= x <= 'Z' && 'A' <= y <= 'Z' {
          assert Fold(x) as int == x as int + 32 && Fold(y) as int == y as int + 32;
        }
      }
    }
  }

  lemma {:induction false} CompareToIgnoreCaseAntisymmetric(a: string, b: string)
    ensures CompareToIgnoreCase(a, b) == -CompareToIgnoreCase(b, a)
  {
    if a != [] && b != [] && Fold(a[0]) == Fold(b[0]) {
      CompareToIgnoreCaseAntisymmetric(a[1..], b[1..]);
    }
  }

  /** Comparing to zero and being equal ignoring case are the same relation. */
  lemma {:induction false} CompareToIgnoreCaseZero(a: string, b: string)
    ensures CompareToIgnoreCase(a, b) == 0 <==> EqualsIgnoreCase(a, b)
  {
    if a != [] && b != [] {
      if Fold(a[0]) == Fold(b[0]) {
        CompareToIgnoreCaseZero(a[1..], b[1..]);
        if EqualsIgnoreCase(a[1..], b[1..]) {
          forall i | 0 <= i < |a| ensures Fold(a[i]) == Fold(b[i]) {
            if i > 0 { assert a[i] == a[1..][i - 1] && b[i] == b[1..][i - 1]; }
          }
        }
        if EqualsIgnoreCase(a, b) {
          forall i | 0 <= i < |a[1..]| ensures Fold(a[1..][i]) == Fold(b[1..][i]) {
            assert a[1..][i] == a[i + 1] && b[1..][i] == b[i + 1];
          }
        }
      } else {
        assert !EqualsIgnoreCase(a, b) by { assert Fold(a[0]) != Fold(b[0]); }
      }
    }
  }

  lemma {:induction false} CompareToIgnoreCaseReflexive(a: string)
    ensures CompareToIgnoreCase(a, a) == 0
  {
    if a != [] {
      CompareToIgnoreCaseReflexive(a[1..]);
    }
  }

  /**
   * The order is transitive, and strict as soon as one of the two steps is strict:
   * CompareToIgnoreCase is a total preorder on strings.
   */
  lemma {:induction false} CompareToIgnoreCaseTransitive(a: string, b: string, c: string)
    requires CompareToIgnoreCase(a, b) <= 0 && CompareToIgnoreCase(b, c) <= 0
    ensures CompareToIgnoreCase(a, c) <= 0
    ensures CompareToIgnoreCase(a, b) < 0 || CompareToIgnoreCase(b, c) < 0 ==> CompareToIgnoreCase(a, c) < 0
  {
    if a != [] && b != [] && c != [] {
      if Fold(a[0]) == Fold(b[0]) && Fold(b[0]) == Fold(c[0]) {
        CompareToIgnoreCaseTransitive(a[1..], b[1..], c[1..]);
      }
    }
  }

  /** Replacing a string by one equal to it ignoring case does not change any comparison. */
  lemma {:induction false} CompareToIgnoreCaseSubstitutes(a: string, a': string, c: string)
    requires EqualsIgnoreCase(a, a')
    ensures CompareToIgnoreCase(a, c) == CompareToIgnoreCase(a', c)
  {
    if a != [] && c != [] {
      assert Fold(a[0]) == Fold(a'[0]);
      assert EqualsIgnoreCase(a[1..], a'[1..]) by {
        forall i | 0 <= i < |a[1..]| ensures Fold(a[1..][i]) == Fold(a'[1..][i]) {
          assert a[1..][i] == a[i + 1] && a'[1..][i] == a'[i + 1];
        }
      }
      CompareToIgnoreCaseSubstitutes(a[1..], a'[1..], c[1..]);
    }
  }

  // ---------------------------------------------------------------------------------------
  // String.replaceAll with a pattern that is a literal string (no regular-expression
  // metacharacter in it) and a replacement without '$' or '\'.
  // ---------------------------------------------------------------------------------------

  /** Left-to-right, non-overlapping replacement of every occurrence of `pattern`. */
  function ReplaceAll(s: string, pattern: string, replacement: string): string
    requires pattern != []
    decreases |s|
  {
    if s == [] then []
    else if pattern <= s then replacement + ReplaceAll(s[|pattern|..], pattern, replacement)
    else [s[0]] + ReplaceAll(s[1..], pattern, replacement)
  }

  /** The number of occurrences ReplaceAll replaces. */
  function Occurrences(s: string, pattern: string): nat
    requires pattern != []
    decreases |s|
  {
    if s == [] then 0
    else if pattern <= s then 1 + Occurrences(s[|pattern|..], pattern)
    else Occurrences(s[1..], pattern)
  }

  /** `pattern` occurs somewhere in `s`. */
  predicate Contains(s: string, pattern: string)
  {
    exists i :: 0 <= i <= |s| && pattern <= s[i..]
  }

  /** Each replacement changes the length by the difference of the two lengths. */
  lemma {:induction false} ReplaceAllLength(s: string, pattern: string, replacement: string)
    requires pattern != []
    ensures |ReplaceAll(s, pattern, replacement)| == |s| + Occurrences(s, pattern) * (|replacement| - |pattern|)
    decreases |s|
  {
    if s != [] {
      if pattern <= s {
        var rest := s[|pattern|..];
        ReplaceAllLength(rest, pattern, replacement);
        OneMoreTimes(Occurrences(rest, pattern), |replacement| - |pattern|);
      } else {
        ReplaceAllLength(s[1..], pattern, replacement);
      }
    }
  }

  /** One more occurrence adds one more length difference. */
  lemma OneMoreTimes(k: int, d: int)
    ensures (1 + k) * d == d + k * d
  {
  }

  /** Without an occurrence of the pattern, ReplaceAll is the identity. */
  lemma {:induction false} ReplaceAllAbsent(s: string, pattern: string, replacement: string)
    requires pattern != [] && !Contains(s, pattern)
    ensures ReplaceAll(s, pattern, replacement) == s
    decreases |s|
  {
    if s != [] {
      assert s[0..] == s;
      assert !Contains(s[1..], pattern) by {
        forall i | 0 <= i <= |s[1..]| ensures !(pattern <= s[1..][i..]) {
          assert s[1..][i..] == s[i + 1..];
        }
      }
      ReplaceAllAbsent(s[1..], pattern, replacement);
    }
  }

  /** A pattern holding a character that `s` lacks does not occur in `s`. */
  lemma CharMissingMeansAbsent(s: string, pattern: string, c: char)
    requires c in pattern && c !in s
    ensures !Contains(s, pattern)
  {
    var k :| 0 <= k < |pattern| && pattern[k] == c;
    forall i | 0 <= i <= |s| ensures !(pattern <= s[i..]) {
      if i + k < |s| {
        assert s[i..][k] == s[i + k];
      }
    }
  }

  /** ReplaceAll introduces no character that neither the input nor the replacement holds. */
  lemma {:induction false} ReplaceAllKeepsCharOut(s: string, pattern: string, replacement: string, c: char)
    requires pattern != [] && c !in s && c !in replacement
    ensures c !in ReplaceAll(s, pattern, replacement)
    decreases |s|
  {
    if s != [] {
      if pattern <= s {
        assert forall x :: x in s[|pattern|..] ==> x in s;
        ReplaceAllKeepsCharOut(s[|pattern|..], pattern, replacement, c);
      } else {
        assert forall x :: x in s[1..] ==> x in s;
        ReplaceAllKeepsCharOut(s[1..], pattern, replacement, c);
      }
    }
  }

  /** Replacing a one-character pattern by text without that character removes it entirely. */
  lemma {:induction false} ReplaceAllRemovesChar(s: string, c: char, replacement: string)
    requires c !in replacement
    ensures c !in ReplaceAll(s, [c], replacement)
    decreases |s|
  {
    if s != [] {
      ReplaceAllRemovesChar(s[1..], c, replacement);
      if [c] <= s {
        assert s[|[c]|..] == s[1..];
      } else {
        assert s[0] != c by { assert [c] != s[..1]; }
      }
    }
  }

  /** A prefix that cannot start an occurrence passes through ReplaceAll unchanged. */
  lemma {:induction false} ReplaceAllKeepsPrefix(pre: string, s: string, pattern: string, replacement: string)
    requires pattern != [] && pattern[0] !in pre
    ensures ReplaceAll(pre + s, pattern, replacement) == pre + ReplaceAll(s, pattern, replacement)
    decreases |pre|
  {
    if pre != [] {
      assert (pre + s)[0] == pre[0];
      assert !(pattern <= pre + s);
      assert (pre + s)[1..] == pre[1..] + s;
      assert ReplaceAll(pre + s, pattern, replacement) == [pre[0]] + ReplaceAll(pre[1..] + s, pattern, replacement);
      ReplaceAllKeepsPrefix(pre[1..], s, pattern, replacement);
      var tail := ReplaceAll(s, pattern, replacement);
      assert [pre[0]] + (pre[1..] + tail) == pre + tail;
    } else {
      assert pre + s == s;
    }
  }

  /** A prefix inside which no occurrence of the pattern starts passes through ReplaceAll unchanged. */
  lemma {:induction false} ReplaceAllKeepsUnmatchedPrefix(pre: string, s: string, pattern: string, replacement: string)
    requires pattern != []
    requires forall i :: 0 <= i < |pre| ==> !(pattern <= (pre + s)[i..])
    ensures ReplaceAll(pre + s, pattern, replacement) == pre + ReplaceAll(s, pattern, replacement)
    decreases |pre|
  {
    if pre != [] {
      assert (pre + s)[0..] == pre + s;
      assert (pre + s)[1..] == pre[1..] + s;
      forall i | 0 <= i < |pre[1..]| ensures !(pattern <= (pre[1..] + s)[i..]) {
        assert (pre[1..] + s)[i..] == (pre + s)[i + 1..];
      }
      ReplaceAllKeepsUnmatchedPrefix(pre[1..], s, pattern, replacement);
      var tail := ReplaceAll(s, pattern, replacement);
      assert [pre[0]] + (pre[1..] + tail) == pre + tail;
    } else {
      assert pre + s == s;
    }
  }

  /** A suffix that cannot end an occurrence passes through ReplaceAll unchanged. */
  lemma {:induction false} ReplaceAllKeepsSuffix(s: string, suf: string, pattern: string, replacement: string)
    requires pattern != [] && pattern[|pattern| - 1] !in suf
    ensures ReplaceAll(s + suf, pattern, replacement) == ReplaceAll(s, pattern, replacement) + suf
    decreases |s|
  {
    if s == [] {
      assert s + suf == suf;
      CharMissingMeansAbsent(suf, pattern, pattern[|pattern| - 1]);
      ReplaceAllAbsent(suf, pattern, replacement);
    } else if pattern <= s + suf {
      assert pattern <= s;
      assert (s + suf)[|pattern|..] == s[|pattern|..] + suf;
      ReplaceAllKeepsSuffix(s[|pattern|..], suf, pattern, replacement);
    } else {
      assert !(pattern <= s);
      assert (s + suf)[1..] == s[1..] + suf;
      ReplaceAllKeepsSuffix(s[1..], suf, pattern, replacement);
    }
  }

  /**
   * A word without the first character of the replacement that starts the output of
   * ReplaceAll also starts the input: no replacement happened inside it.
   */
  lemma {:induction false} PrefixThroughReplaceAll(w: string, t: string, pattern: string, replacement: string)
    requires pattern != [] && replacement != []
    requires replacement[0] !in w && w <= ReplaceAll(t, pattern, replacement)
    ensures w <= t
    decreases |w|
  {
    if w != [] {
      assert t != [];
      assert w[0] != replacement[0];
      assert ReplaceAll(t, pattern, replacement)[0] == w[0];
      var rest := ReplaceAll(t[1..], pattern, replacement);
      assert ReplaceAll(t, pattern, replacement) == [t[0]] + rest;
      assert w[1..] <= rest;
      PrefixThroughReplaceAll(w[1..], t[1..], pattern, replacement);
    }
  }

  /** An occurrence in `a + b` that is not an occurrence in `b` starts inside `a`. */
  lemma ConcatOccurrence(a: string, b: string, p: string) returns (i: nat)
    requires Contains(a + b, p) && !Contains(b, p)
    ensures i < |a| && p <= (a + b)[i..]
  {
    if forall k :: 0 <= k < |a| ==> !(p <= (a + b)[k..]) {
      forall k | 0 <= k <= |a + b| ensures !(p <= (a + b)[k..]) {
        if k >= |a| {
          assert (a + b)[k..] == b[k - |a|..];
        }
      }
      assert false;
    }
    i :| 0 <= i < |a| && p <= (a + b)[i..];
  }

  /** A text without the pattern has no suffix with the pattern. */
  lemma AbsentFromSuffix(s: string, k: nat, p: string)
    requires k <= |s| && !Contains(s, p)
    ensures !Contains(s[k..], p)
  {
    forall i | 0 <= i <= |s[k..]| ensures !(p <= s[k..][i..]) {
      assert s[k..][i..] == s[k + i..];
    }
  }

  /**
   * ReplaceAll creates no occurrence of `p` that was not in its input, when the replacement
   * holds no first character of `p` and does not start with a character of `p`.
   */
  lemma {:induction false} ReplaceAllNoNewOccurrence(s: string, pattern: string, replacement: string, p: string)
    requires pattern != [] && replacement != [] && p != []
    requires p[0] !in replacement && replacement[0] !in p
    requires !Contains(s, p)
    ensures !Contains(ReplaceAll(s, pattern, replacement), p)
    decreases |s|
  {
    var out := ReplaceAll(s, pattern, replacement);
    if s == [] {
      assert !(p <= out[0..]);
    } else if pattern <= s {
      var rest := ReplaceAll(s[|pattern|..], pattern, replacement);
      AbsentFromSuffix(s, |pattern|, p);
      ReplaceAllNoNewOccurrence(s[|pattern|..], pattern, replacement, p);
      if Contains(replacement + rest, p) {
        var i := ConcatOccurrence(replacement, rest, p);
      }
    } else {
      var rest := ReplaceAll(s[1..], pattern, replacement);
      AbsentFromSuffix(s, 1, p);
      ReplaceAllNoNewOccurrence(s[1..], pattern, replacement, p);
      if Contains([s[0]] + rest, p) {
        var i := ConcatOccurrence([s[0]], rest, p);
        assert i == 0 && ([s[0]] + rest)[1..] == rest;
        assert s[0..] == s;
        NoOccurrenceAcrossCopy(s, p, rest, pattern, replacement);
      }
    }
  }

  /**
   * An occurrence of `p` at the start of `s[0]` followed by the rewritten rest of `s` would
   * already be an occurrence at the start of `s`.
   */
  lemma NoOccurrenceAcrossCopy(s: string, p: string, rest: string, pattern: string, replacement: string)
    requires s != [] && pattern != [] && replacement != [] && p != [] && replacement[0] !in p
    requires rest == ReplaceAll(s[1..], pattern, replacement)
    requires p <= [s[0]] + rest
    ensures p <= s
  {
    assert p[1..] <= rest by {
      forall j | 0 <= j < |p[1..]| ensures p[1..][j] == rest[j] {
        assert p[1..][j] == p[j + 1] == ([s[0]] + rest)[j + 1];
      }
    }
    assert replacement[0] !in p[1..];
    PrefixThroughReplaceAll(p[1..], s[1..], pattern, replacement);
    assert p == [s[0]] + p[1..];
    assert s == [s[0]] + s[1..];
  }

  /**
   * After ReplaceAll the pattern no longer occurs, when the replacement holds no first
   * character of the pattern and does not start with a character of the pattern.
   */
  lemma {:induction false} ReplaceAllRemovesPattern(s: string, pattern: string, replacement: string)
    requires pattern != [] && replacement != []
    requires pattern[0] !in replacement && replacement[0] !in pattern
    ensures !Contains(ReplaceAll(s, pattern, replacement), pattern)
    decreases |s|
  {
    var out := ReplaceAll(s, pattern, replacement);
    if s == [] {
      assert !(pattern <= out[0..]);
    } else if pattern <= s {
      var rest := ReplaceAll(s[|pattern|..], pattern, replacement);
      ReplaceAllRemovesPattern(s[|pattern|..], pattern, replacement);
      if Contains(replacement + rest, pattern) {
        var i := ConcatOccurrence(replacement, rest, pattern);
      }
    } else {
      var rest := ReplaceAll(s[1..], pattern, replacement);
      ReplaceAllRemovesPattern(s[1..], pattern, replacement);
      if Contains([s[0]] + rest, pattern) {
        var i := ConcatOccurrence([s[0]], rest, pattern);
        assert i == 0 && ([s[0]] + rest)[0..] == [s[0]] + rest;
        NoOccurrenceAcrossCopy(s, pattern, rest, pattern, replacement);
      }
    }
  }

  /**
   * Where the pattern does not start, the marked text does not start with `pattern + marker`
   * either: the pattern's first character can only come back at the head of a copied pattern.
   */
  lemma NoMarkAfterMiss(s: string, pattern: string, marker: string)
    requires s != [] && !(pattern <= s)
    requires pattern != [] && pattern[0] !in pattern[1..] && pattern[0] !in marker
    ensures !(pattern + marker <= [s[0]] + ReplaceAll(s[1..], pattern, pattern + marker))
  {
    var marked := pattern + marker;
    var rest := ReplaceAll(s[1..], pattern, marked);
    if marked <= [s[0]] + rest {
      assert s[0] == pattern[0] by {
        assert marked[0] == pattern[0] && ([s[0]] + rest)[0] == s[0];
      }
      var w := pattern[1..] + marker;
      assert w <= rest by {
        forall i | 0 <= i < |w| ensures w[i] == rest[i] {
          assert w[i] == marked[i + 1];
        }
      }
      assert marked[0] !in w;
      PrefixThroughReplaceAll(w, s[1..], pattern, marked);
      assert false;
    }
  }

  /**
   * Appending `marker` after every occurrence of `pattern` is undone by replacing every
   * `pattern + marker` by `pattern`, provided the pattern's first character occurs neither
   * later in the pattern nor in the marker.
   */
  lemma {:induction false} InsertAfterRoundTrip(s: string, pattern: string, marker: string)
    requires pattern != [] && pattern[0] !in pattern[1..] && pattern[0] !in marker
    ensures ReplaceAll(ReplaceAll(s, pattern, pattern + marker), pattern + marker, pattern) == s
    decreases |s|
  {
    var marked := pattern + marker;
    if s != [] {
      if pattern <= s {
        var rest := ReplaceAll(s[|pattern|..], pattern, marked);
        assert ReplaceAll(s, pattern, marked) == marked + rest;
        assert marked <= marked + rest;
        assert (marked + rest)[|marked|..] == rest;
        InsertAfterRoundTrip(s[|pattern|..], pattern, marker);
        assert pattern + s[|pattern|..] == s;
      } else {
        var rest := ReplaceAll(s[1..], pattern, marked);
        assert ReplaceAll(s, pattern, marked) == [s[0]] + rest;
        NoMarkAfterMiss(s, pattern, marker);
        assert ([s[0]] + rest)[1..] == rest;
        InsertAfterRoundTrip(s[1..], pattern, marker);
      }
    }
  }

  // ---------------------------------------------------------------------------------------
  // Integer.toString and StringBuilder.append(String)
  // ---------------------------------------------------------------------------------------

  function DigitChar(d: nat): (c: char)
    requires d < 10
    ensures '0' <= c <= '9' && c as int - '0' as int == d
  {
    ('0' as int + d) as char
  }

  /** The number a string of decimal digits denotes, most significant digit first. */
  function DigitsValue(s: string): int
  {
    if s == [] then 0 else 10 * DigitsValue(s[..|s| - 1]) + (s[|s| - 1] as int - '0' as int)
  }

  /** The decimal digits of a natural number, without leading zeros. */
  function Digits(n: nat): (r: string)
    ensures r != [] && forall i :: 0 <= i < |r| ==> '0' <= r[i] <= '9'
    ensures DigitsValue(r) == n
    ensures n < 10 ==> |r| == 1
    ensures n >= 10 ==> r[0] != '0'
  {
    if n < 10 then
      var r := [DigitChar(n)];
      assert r[..0] == [];
      r
    else
      var high, low := Digits(n / 10), [DigitChar(n % 10)];
      assert (high + low)[..|high|] == high;
      high + low
  }

  /** Integer.toString: the decimal digits of the magnitude, after a '-' for a negative number. */
  function DecimalString(n: int): (r: string)
    ensures r != []
    ensures n >= 0 <==> r[0] != '-'
    ensures forall i :: (if n < 0 then 1 else 0) <= i < |r| ==> '0' <= r[i] <= '9'
    ensures n >= 0 ==> DigitsValue(r) == n
    ensures n < 0 ==> DigitsValue(r[1..]) == -n
    ensures var k := if n < 0 then 1 else 0; |r| > k + 1 ==> r[k] != '0'
  {
    if n < 0 then
      var r := "-" + Digits(-n);
      assert r[1..] == Digits(-n);
      r
    else Digits(n)
  }

  /** StringBuilder.append(String): a null String is appended as the four characters "null". */
  function AppendText(text: Option<string>): (r: string)
    ensures text.Some? ==> r == text.value
    ensures text.None? ==> r == "null"
  {
    match text
    case Some(t) => t
    case None => "null"
  }
}
