/**
 * The Java and commons-lang string operations the notification code relies on:
 * `StringUtils.isEmpty`/`isBlank`, `Integer.toString` as used by string
 * concatenation, and `String.replace(CharSequence, CharSequence)`.
 * A Java `String` that may be null is an `Option<string>`.
 */
module Text {
  import opened Wrappers

  /** `Character.isWhitespace`: the ASCII controls TAB..CR and FS..US, space, and
      the Unicode space/line/paragraph separators other than the non-breaking ones. */
  predicate IsJavaWhitespace(c: char) {
    var n := c as int;
    (9 <= n <= 13) || (28 <= n <= 32) || n == 0x1680
    || (0x2000 <= n <= 0x2006) || (0x2008 <= n <= 0x200A)
    || n == 0x2028 || n == 0x2029 || n == 0x205F || n == 0x3000
  }

  /** `StringUtils.isEmpty`: null or of length zero. */
  predicate IsEmpty(s: Option<string>) {
    s.None? || s.value == ""
  }

  /** `StringUtils.isBlank`: null, empty, or whitespace only. */
  predicate IsBlank(s: Option<string>) {
    s.None? || forall k | 0 <= k < |s.value| :: IsJavaWhitespace(s.value[k])
  }

  /** Java's `a + b` for a String `b` that may be null: null is printed as "null". */
  function JavaConcat(a: string, b: Option<string>): string {
    a + b.GetOr("null")
  }

  // ---------------------------------------------------------------------------
  // Decimal rendering of an int, as `"" + n` does in Java.

  function DigitChar(d: nat): char
    requires d < 10
  {
    (('0' as int) + d) as char
  }

  /** Decimal digits of `n`, most significant first, without leading zeros. */
  function NatToString(n: nat): (s: string)
    ensures |s| >= 1
    ensures forall k | 0 <= k < |s| :: '0' <= s[k] <= '9'
    ensures |s| == 1 <==> n < 10
    decreases n
  {
    if n < 10 then [DigitChar(n)] else NatToString(n / 10) + [DigitChar(n % 10)]
  }

  /** Decimal rendering of `i`, with a leading minus sign exactly when it is negative. */
  function IntToString(i: int): (s: string)
    ensures |s| >= 1
    ensures s[0] == '-' <==> i < 0
  {
    if i < 0 then "-" + NatToString(-i) else NatToString(i)
  }

  /** Distinct numbers have distinct decimal renderings. */
  lemma {:induction false} NatToStringInjective(a: nat, b: nat)
    requires NatToString(a) == NatToString(b)
    ensures a == b
    decreases a
  {
    if a >= 10 && b >= 10 {
      var sa, sb := NatToString(a), NatToString(b);
      assert sa[..|sa| - 1] == NatToString(a / 10);
      assert sb[..|sb| - 1] == NatToString(b / 10);
      assert DigitChar(a % 10) == sa[|sa| - 1] == sb[|sb| - 1] == DigitChar(b % 10);
      NatToStringInjective(a / 10, b / 10);
    } else if a < 10 && b < 10 {
      assert DigitChar(a) == NatToString(a)[0] == NatToString(b)[0] == DigitChar(b);
    }
  }

  lemma IntToStringInjective(a: int, b: int)
    requires IntToString(a) == IntToString(b)
    ensures a == b
  {
    if a < 0 && b < 0 {
      assert IntToString(a)[1..] == NatToString(-a);
      assert IntToString(b)[1..] == NatToString(-b);
      NatToStringInjective(-a, -b);
    } else if a >= 0 && b >= 0 {
      NatToStringInjective(a, b);
    }
  }

  // ---------------------------------------------------------------------------
  // Concatenation of a list of strings.

  function Concat(ts: seq<string>): string {
    if ts == [] then "" else ts[0] + Concat(ts[1..])
  }

  lemma {:induction false} ConcatAppend(ts: seq<string>, x: string)
    ensures Concat(ts + [x]) == Concat(ts) + x
  {
    if ts != [] {
      assert (ts + [x])[1..] == ts[1..] + [x];
      ConcatAppend(ts[1..], x);
    }
  }

  // ---------------------------------------------------------------------------
  // `String.replace(target, replacement)`: scans left to right and replaces every
  // non-overlapping occurrence of `target`; the inserted text is not scanned again.

  predicate OccursAt(s: string, target: string, i: nat) {
    i + |target| <= |s| && s[i..i + |target|] == target
  }

  predicate Occurs(s: string, target: string) {
    exists i: nat | i <= |s| :: OccursAt(s, target, i)
  }

  function ReplaceAll(s: string, target: string, replacement: string): string
    requires |target| > 0
    decreases |s|
  {
    if |s| < |target| then s
    else if s[..|target|] == target then replacement + ReplaceAll(s[|target|..], target, replacement)
    else [s[0]] + ReplaceAll(s[1..], target, replacement)
  }

  /** A string in which the target does not occur is returned unchanged. */
  lemma {:induction false} ReplaceAllAbsent(s: string, target: string, replacement: string)
    requires |target| > 0
    requires !Occurs(s, target)
    ensures ReplaceAll(s, target, replacement) == s
    decreases |s|
  {
    if |s| >= |target| {
      assert !OccursAt(s, target, 0);
      assert s[..|target|] != target;
      forall i: nat
        ensures !OccursAt(s[1..], target, i)
      {
        assert !OccursAt(s, target, i + 1);
        if i + |target| <= |s[1..]| {
          assert s[1..][i..i + |target|] == s[i + 1..i + 1 + |target|];
        }
      }
      ReplaceAllAbsent(s[1..], target, replacement);
      assert s == [s[0]] + s[1..];
    }
  }

  /** A string that differs from the target at index `k` does not start with it. */
  lemma PrefixDiffers(s: string, target: string, k: nat)
    requires k < |target| <= |s| && s[k] != target[k]
    ensures s[..|target|] != target
  {
    assert s[..|target|][k] == s[k];
  }

  /** Without an occurrence at the start, the first character is kept and the
      scan moves one character on. */
  lemma ReplaceAllStepPast(s: string, target: string, replacement: string)
    requires 0 < |target| <= |s| && s[..|target|] != target
    ensures ReplaceAll(s, target, replacement) == [s[0]] + ReplaceAll(s[1..], target, replacement)
  {
  }

  /** Text free of the target's first character passes through the scan. */
  lemma {:induction false} ReplaceAllSkipsPrefix(w: string, y: string, target: string, replacement: string)
    requires |target| > 0
    requires forall i | 0 <= i < |w| :: w[i] != target[0]
    ensures ReplaceAll(w + y, target, replacement) == w + ReplaceAll(y, target, replacement)
    decreases |w|
  {
    if w == [] {
      assert w + y == y;
    } else {
      var s := w + y;
      if |s| >= |target| {
        assert s[..|target|][0] == w[0];
        assert s[1..] == w[1..] + y;
        ReplaceAllSkipsPrefix(w[1..], y, target, replacement);
        assert w == [w[0]] + w[1..];
      }
    }
  }

  /** An occurrence at the start of `x + z` that ran into `z` would put `z[0]`,
      the target's first character, inside the target. */
  lemma NoStraddle(x: string, z: string, target: string)
    requires 0 < |x| < |target| <= |x| + |z|
    requires forall i | 0 < i < |target| :: target[i] != target[0]
    requires z[0] == target[0]
    ensures (x + z)[..|target|] != target
  {
    assert (x + z)[..|target|][|x|] == z[0];
  }

  /** When the target's first character occurs in the target only at its start,
      no occurrence straddles the boundary before a string `z` that starts with
      that character: the two sides are scanned separately. */
  lemma {:induction false} ReplaceAllSplitsBefore(x: string, z: string, target: string, replacement: string)
    requires |target| > 0
    requires forall i | 0 < i < |target| :: target[i] != target[0]
    requires |z| > 0 && z[0] == target[0]
    ensures ReplaceAll(x + z, target, replacement)
              == ReplaceAll(x, target, replacement) + ReplaceAll(z, target, replacement)
    decreases |x|
  {
    var s := x + z;
    if x == [] {
      assert s == z;
    } else if |s| < |target| {
    } else if |target| <= |x| {
      assert s[..|target|] == x[..|target|];
      if x[..|target|] == target {
        assert s[|target|..] == x[|target|..] + z;
        ReplaceAllSplitsBefore(x[|target|..], z, target, replacement);
      } else {
        assert s[1..] == x[1..] + z;
        ReplaceAllSplitsBefore(x[1..], z, target, replacement);
      }
    } else {
      NoStraddle(x, z, target);
      assert s[1..] == x[1..] + z;
      ReplaceAllSplitsBefore(x[1..], z, target, replacement);
      assert x == [x[0]] + x[1..];
    }
  }

  /** A string `p` that starts with the target's first character, contains it
      nowhere else and differs from the target at index `k` is left as it is,
      and the scan goes on after it. */
  lemma ReplaceAllAfterBarrier(p: string, y: string, target: string, replacement: string, k: nat)
    requires |target| > 0
    requires |p| > 0 && p[0] == target[0]
    requires forall i | 0 < i < |p| :: p[i] != target[0]
    requires k < |p| && k < |target| && p[k] != target[k]
    ensures ReplaceAll(p + y, target, replacement) == p + ReplaceAll(y, target, replacement)
  {
    var s := p + y;
    var w := p[1..];
    assert forall i | 0 <= i < |w| :: w[i] == p[i + 1];
    ReplaceAllSkipsPrefix(w, y, target, replacement);
    if |s| >= |target| {
      assert s[k] == p[k];
      PrefixDiffers(s, target, k);
      ReplaceAllStepPast(s, target, replacement);
      assert s[1..] == w + y;
    }
    assert p == [p[0]] + w;
  }

  /** Text without the target's first character is unchanged. */
  lemma ReplaceAllWithoutFirstCharacter(s: string, target: string, replacement: string)
    requires |target| > 0
    requires forall i | 0 <= i < |s| :: s[i] != target[0]
    ensures ReplaceAll(s, target, replacement) == s
  {
    ReplaceAllSkipsPrefix(s, "", target, replacement);
    assert s + "" == s;
  }

  /** When the target's first character occurs in the target only at its start,
      an occurrence anywhere is replaced, and the text before and after it is
      scanned on its own. */
  lemma ReplaceAllAtOccurrence(x: string, y: string, target: string, replacement: string)
    requires |target| > 0
    requires forall i | 0 < i < |target| :: target[i] != target[0]
    ensures ReplaceAll(x + target + y, target, replacement)
              == ReplaceAll(x, target, replacement) + replacement + ReplaceAll(y, target, replacement)
  {
    assert x + target + y == x + (target + y);
    ReplaceAllSplitsBefore(x, target + y, target, replacement);
    ReplaceAllLeadingOccurrence(target, y, replacement);
  }

  /** Such a string `p`, when moreover the target's first character occurs in
      the target only at its start, is a barrier: every occurrence lies wholly
      before or wholly after it. */
  lemma ReplaceAllAroundBarrier(x: string, p: string, y: string, target: string, replacement: string, k: nat)
    requires |target| > 0
    requires forall i | 0 < i < |target| :: target[i] != target[0]
    requires |p| > 0 && p[0] == target[0]
    requires forall i | 0 < i < |p| :: p[i] != target[0]
    requires k < |p| && k < |target| && p[k] != target[k]
    ensures ReplaceAll(x + p + y, target, replacement)
              == ReplaceAll(x, target, replacement) + p + ReplaceAll(y, target, replacement)
  {
    assert x + p + y == x + (p + y);
    ReplaceAllSplitsBefore(x, p + y, target, replacement);
    ReplaceAllAfterBarrier(p, y, target, replacement, k);
  }

  /** An occurrence at the very start is replaced, and the scan resumes after it. */
  lemma ReplaceAllLeadingOccurrence(target: string, rest: string, replacement: string)
    requires |target| > 0
    ensures ReplaceAll(target + rest, target, replacement) == replacement + ReplaceAll(rest, target, replacement)
  {
    var s := target + rest;
    assert s[..|target|] == target;
    assert s[|target|..] == rest;
  }
}
