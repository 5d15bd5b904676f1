/**
 * The JavaScript string operations the data layer relies on: ASCII case
 * mapping, prefix/suffix tests, `replace` of the first occurrence, `trim`,
 * the first segment of `split`, decimal formatting of integers, and the
 * ordering used to sort date keys.
 */
module Text {
  import opened Wrappers

  // ---------------------------------------------------------------- case

  /** `toLowerCase` restricted to ASCII letters. */
  function LowerChar(c: char): (r: char)
    ensures !('A' <= r <= 'Z')
    ensures 'a' <= c <= 'z' ==> r == c
  {
    if 'A' <= c <= 'Z' then (c as int + 32) as char else c
  }

  /** `toUpperCase` restricted to ASCII letters. */
  function UpperChar(c: char): (r: char)
    ensures !('a' <= r <= 'z')
    ensures 'A' <= c <= 'Z' ==> r == c
  {
    if 'a' <= c <= 'z' then (c as int - 32) as char else c
  }

  function Lower(s: string): (r: string)
    ensures |r| == |s|
    ensures forall i :: 0 <= i < |s| ==> r[i] == LowerChar(s[i])
  {
    seq(|s|, i requires 0 <= i < |s| => LowerChar(s[i]))
  }

  /** Lowering twice is lowering once. */
  lemma LowerIdempotent(s: string)
    ensures Lower(Lower(s)) == Lower(s)
  {
    assert forall i :: 0 <= i < |s| ==> LowerChar(LowerChar(s[i])) == LowerChar(s[i]);
  }

  // ------------------------------------------------------- prefix, suffix

  predicate StartsWith(s: string, prefix: string) {
    |prefix| <= |s| && s[..|prefix|] == prefix
  }

  predicate EndsWith(s: string, suffix: string) {
    |suffix| <= |s| && s[|s| - |suffix|..] == suffix
  }

  /** `pat` occurs in `s` starting at index `k`. */
  predicate OccursAt(s: string, pat: string, k: nat) {
    k + |pat| <= |s| && s[k..k + |pat|] == pat
  }

  /** Index of the first occurrence of `pat` in `s` at or after `from`. */
  function IndexOfFrom(s: string, pat: string, from: nat): (r: Option<nat>)
    requires from <= |s|
    ensures r.Some? ==> from <= r.value && OccursAt(s, pat, r.value)
    ensures r.Some? ==> forall k :: from <= k < r.value ==> !OccursAt(s, pat, k)
    ensures r.None? ==> forall k :: from <= k ==> !OccursAt(s, pat, k)
    decreases |s| - from
  {
    if from + |pat| > |s| then None
    else if OccursAt(s, pat, from) then Some(from)
    else IndexOfFrom(s, pat, from + 1)
  }

  /** `s.replace(pat, rep)` with a string pattern: only the first occurrence is replaced. */
  function ReplaceFirst(s: string, pat: string, rep: string): (r: string)
  {
    match IndexOfFrom(s, pat, 0)
    case None => s
    case Some(k) => s[..k] + rep + s[k + |pat|..]
  }

  // ----------------------------------------------------------- whitespace

  /** The characters `String.prototype.trim` removes: WhiteSpace and LineTerminator of ECMAScript. */
  predicate IsJsSpace(c: char) {
    c == '\t' || c == '\n' || c == '\U{000B}' || c == '\U{000C}' || c == '\r' || c == ' ' ||
    c == '\U{00A0}' || c == '\U{1680}' || ('\U{2000}' <= c <= '\U{200A}') ||
    c == '\U{2028}' || c == '\U{2029}' || c == '\U{202F}' || c == '\U{205F}' ||
    c == '\U{3000}' || c == '\U{FEFF}'
  }

  function TrimStart(s: string): (r: string)
    ensures |r| <= |s| && r == s[|s| - |r|..]
    ensures r == [] || !IsJsSpace(r[0])
    ensures forall i :: 0 <= i < |s| - |r| ==> IsJsSpace(s[i])
  {
    if s != [] && IsJsSpace(s[0]) then TrimStart(s[1..]) else s
  }

  function TrimEnd(s: string): (r: string)
    ensures |r| <= |s| && r == s[..|r|]
    ensures r == [] || !IsJsSpace(r[|r| - 1])
    ensures forall i :: |r| <= i < |s| ==> IsJsSpace(s[i])
  {
    if s != [] && IsJsSpace(s[|s| - 1]) then TrimEnd(s[..|s| - 1]) else s
  }

  /** `s.trim()` */
  function Trim(s: string): string {
    TrimEnd(TrimStart(s))
  }

  /** `s.split(sep)[0]`: everything before the first `sep`, or all of `s`. */
  function FirstSegment(s: string, sep: char): (r: string)
    ensures |r| <= |s| && r == s[..|r|]
    ensures sep !in r
    ensures |r| < |s| ==> s[|r|] == sep
  {
    if s == [] || s[0] == sep then [] else [s[0]] + FirstSegment(s[1..], sep)
  }

  // ------------------------------------------------------------- numbers

  function DigitChar(d: nat): (c: char)
    requires d < 10
    ensures '0' <= c <= '9'
  {
    ('0' as int + d) as char
  }

  /** Decimal notation of a natural number, without leading zeros. */
  function NatToString(n: nat): (r: string)
    ensures |r| >= 1
    ensures forall i :: 0 <= i < |r| ==> '0' <= r[i] <= '9'
    ensures n >= 10 ==> r[0] != '0'
  {
    if n < 10 then [DigitChar(n)] else NatToString(n / 10) + [DigitChar(n % 10)]
  }

  /** Decimal notation of an integer, as `String(n)` prints an integral number. */
  function IntToString(n: int): string {
    if n < 0 then "-" + NatToString(-n) else NatToString(n)
  }

  /** The value a string of decimal digits denotes. */
  function DigitsValue(s: string): int
  {
    if s == [] then 0 else 10 * DigitsValue(s[..|s| - 1]) + (s[|s| - 1] as int - '0' as int)
  }

  /** Printing a natural number and reading the digits back gives the number. */
  lemma {:induction false} NatToStringValue(n: nat)
    ensures DigitsValue(NatToString(n)) == n
  {
    if n >= 10 {
      NatToStringValue(n / 10);
      var s := NatToString(n);
      assert s[..|s| - 1] == NatToString(n / 10);
    }
  }

  /** Distinct naturals print differently. */
  lemma NatToStringInjective(m: nat, n: nat)
    requires NatToString(m) == NatToString(n)
    ensures m == n
  {
    NatToStringValue(m);
    NatToStringValue(n);
  }

  /**
   * `w` decimal digits of `n`, most significant first, zero-padded on the
   * left (the digits of `n` modulo 10^w).
   */
  function Digits(n: int, w: nat): (r: string)
    ensures |r| == w
    ensures forall i :: 0 <= i < w ==> '0' <= r[i] <= '9'
    decreases w
  {
    if w == 0 then [] else Digits(n / 10, w - 1) + [DigitChar(n % 10)]
  }

  function Pow10(w: nat): (p: nat)
    ensures p >= 1
  {
    if w == 0 then 1 else 10 * Pow10(w - 1)
  }

  /** For `0 <= n < 10^w`, the padded digits of `n` spell `n` exactly. */
  lemma {:induction false} DigitsValueOf(n: int, w: nat)
    requires 0 <= n < Pow10(w)
    ensures DigitsValue(Digits(n, w)) == n
  {
    if w > 0 {
      DigitsValueOf(n / 10, w - 1);
      var s := Digits(n, w);
      assert s[..|s| - 1] == Digits(n / 10, w - 1);
    }
  }

  // ------------------------------------------------------------ ordering

  /** Code-unit lexicographic order on strings (`a <= b`). */
  predicate LexLe(a: string, b: string)
  {
    if a == [] then true
    else if b == [] then false
    else if a[0] != b[0] then a[0] < b[0]
    else LexLe(a[1..], b[1..])
  }

  lemma {:induction false} LexLeTotal(a: string, b: string)
    ensures LexLe(a, b) || LexLe(b, a)
  {
    if a != [] && b != [] && a[0] == b[0] {
      LexLeTotal(a[1..], b[1..]);
    }
  }

  lemma {:induction false} LexLeTransitive(a: string, b: string, c: string)
    requires LexLe(a, b) && LexLe(b, c)
    ensures LexLe(a, c)
  {
    if a != [] && b != [] && c != [] && a[0] == b[0] && b[0] == c[0] {
      LexLeTransitive(a[1..], b[1..], c[1..]);
    }
  }

  lemma {:induction false} LexLeAntisymmetric(a: string, b: string)
    requires LexLe(a, b) && LexLe(b, a)
    ensures a == b
  {
    if a != [] && b != [] {
      LexLeAntisymmetric(a[1..], b[1..]);
      assert a == [a[0]] + a[1..];
      assert b == [b[0]] + b[1..];
    }
  }

  /**
   * The primary weight `localeCompare` gives a character under the root
   * collation, as far as day keys need it: `-` sorts just before `+`, and
   * every other character keeps its code-unit place. Distinct characters
   * get distinct weights.
   */
  function CollationWeight(c: char): int {
    if c == '-' then 2 * ('+' as int) - 1 else 2 * (c as int)
  }

  /** `a.localeCompare(b) <= 0` on strings over digits, `-` and `+`. */
  predicate CollateLe(a: string, b: string)
  {
    if a == [] then true
    else if b == [] then false
    else if a[0] != b[0] then CollationWeight(a[0]) < CollationWeight(b[0])
    else CollateLe(a[1..], b[1..])
  }

  lemma {:induction false} CollateLeTotal(a: string, b: string)
    ensures CollateLe(a, b) || CollateLe(b, a)
  {
    if a != [] && b != [] && a[0] == b[0] {
      CollateLeTotal(a[1..], b[1..]);
    }
  }

  lemma {:induction false} CollateLeTransitive(a: string, b: string, c: string)
    requires CollateLe(a, b) && CollateLe(b, c)
    ensures CollateLe(a, c)
  {
    if a != [] && b != [] && c != [] && a[0] == b[0] && b[0] == c[0] {
      CollateLeTransitive(a[1..], b[1..], c[1..]);
    }
  }

  /** Only digits and `-`: the characters of a day key in years 0..9999. */
  predicate DigitsAndDashes(s: string) {
    forall i :: 0 <= i < |s| ==> s[i] == '-' || '0' <= s[i] <= '9'
  }

  /** Without `+`, collation and code-unit order agree. */
  lemma {:induction false} CollateIsLexOnDigitsAndDashes(a: string, b: string)
    requires DigitsAndDashes(a) && DigitsAndDashes(b)
    ensures CollateLe(a, b) <==> LexLe(a, b)
  {
    if a != [] && b != [] {
      assert a[0] == '-' || '0' <= a[0] <= '9';
      assert b[0] == '-' || '0' <= b[0] <= '9';
      if a[0] == b[0] {
        assert DigitsAndDashes(a[1..]) by {
          forall i | 0 <= i < |a[1..]| ensures a[1..][i] == '-' || '0' <= a[1..][i] <= '9' {
            assert a[1..][i] == a[i + 1];
          }
        }
        assert DigitsAndDashes(b[1..]) by {
          forall i | 0 <= i < |b[1..]| ensures b[1..][i] == '-' || '0' <= b[1..][i] <= '9' {
            assert b[1..][i] == b[i + 1];
          }
        }
        CollateIsLexOnDigitsAndDashes(a[1..], b[1..]);
      }
    }
  }

  /**
   * Where a key of a negative extended year meets one of a positive
   * extended year, the two orders part: collation puts the negative one
   * first, code-unit order the positive one.
   */
  lemma MinusBeforePlus(a: string, b: string)
    requires a != [] && b != [] && a[0] == '-' && b[0] == '+'
    ensures CollateLe(a, b) && !CollateLe(b, a)
    ensures LexLe(b, a) && !LexLe(a, b)
  {
    assert CollationWeight(a[0]) < CollationWeight(b[0]);
  }

  /**
   * Zero-padded numerals of one width sort as their values: for
   * `0 <= m, n < 10^w`, `Digits(m, w) <= Digits(n, w)` iff `m <= n`.
   * This is why fixed-width date keys sort chronologically.
   */
  lemma {:induction false} DigitsOrder(m: int, n: int, w: nat)
    requires 0 <= m < Pow10(w) && 0 <= n < Pow10(w)
    ensures LexLe(Digits(m, w), Digits(n, w)) <==> m <= n
  {
    if w > 0 {
      var a, b := Digits(m, w), Digits(n, w);
      DigitsOrder(m / 10, n / 10, w - 1);
      LexAppend(Digits(m / 10, w - 1), Digits(n / 10, w - 1), DigitChar(m % 10), DigitChar(n % 10));
      if Digits(m / 10, w - 1) == Digits(n / 10, w - 1) {
        DigitsValueOf(m / 10, w - 1);
        DigitsValueOf(n / 10, w - 1);
      } else if m / 10 == n / 10 {
        assert false;
      }
    }
  }

  /** Comparing two equal-length strings that each end in one more character. */
  lemma {:induction false} LexAppend(a: string, b: string, x: char, y: char)
    requires |a| == |b|
    ensures LexLe(a + [x], b + [y]) <==> (a != b && LexLe(a, b)) || (a == b && x <= y)
  {
    if a != [] {
      assert (a + [x])[1..] == a[1..] + [x];
      assert (b + [y])[1..] == b[1..] + [y];
      assert a == [a[0]] + a[1..] && b == [b[0]] + b[1..];
      LexAppend(a[1..], b[1..], x, y);
    }
  }

  /** Comparing two strings that start with prefixes of one length. */
  lemma {:induction false} LexConcat(a: string, b: string, c: string, d: string)
    requires |a| == |c|
    ensures LexLe(a + b, c + d) <==> (a != c && LexLe(a, c)) || (a == c && LexLe(b, d))
  {
    if a != [] {
      assert (a + b)[1..] == a[1..] + b;
      assert (c + d)[1..] == c[1..] + d;
      assert a == [a[0]] + a[1..] && c == [c[0]] + c[1..];
      LexConcat(a[1..], b, c[1..], d);
    } else {
      assert a + b == b && c + d == d;
    }
  }
}
