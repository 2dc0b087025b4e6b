/** The string operations the pages use, on `string = seq<char>`:
    stripping non-digits (`replace(/\D/g, '')`), `slice(0, n)`,
    `toLowerCase` (ASCII letters only), `includes`, and the decimal
    `toString` of a non-negative integer. */
module Text {
  import Sequences

  predicate IsDigit(c: char) {
    '0' <= c <= '9'
  }

  predicate AllDigits(s: string) {
    forall i :: 0 <= i < |s| ==> IsDigit(s[i])
  }

  /** `s.replace(/\D/g, '')`: `\D` is every character other than 0-9. */
  function DigitsOnly(s: string): string {
    Sequences.Filter(s, IsDigit)
  }

  /** The digits of `s`, in order, each as often as it occurs in `s`, and
      nothing else; digit strings are left alone. */
  lemma DigitsOnlySpec(s: string)
    ensures AllDigits(DigitsOnly(s))
    ensures Sequences.SubsequenceOf(DigitsOnly(s), s)
    ensures forall c :: c in s && IsDigit(c) ==> c in DigitsOnly(s)
    ensures forall c :: multiset(DigitsOnly(s))[c] == if IsDigit(c) then multiset(s)[c] else 0
    ensures AllDigits(s) ==> DigitsOnly(s) == s
  {
    var d := DigitsOnly(s);
    forall i | 0 <= i < |d| ensures IsDigit(d[i]) {
      assert d[i] in d;
    }
    Sequences.FilterIsSubsequence(s, IsDigit);
    forall c | c in s && IsDigit(c) ensures c in d {
      Sequences.FilterKeepsAccepted(s, IsDigit, c);
    }
    Sequences.FilterCounts(s, IsDigit);
  }

  /** The input normaliser `value.replace(/\D/g, '').slice(0, max)`. */
  function KeepDigits(s: string, max: nat): (r: string)
    ensures |r| <= max && AllDigits(r)
    ensures |r| == if |DigitsOnly(s)| < max then |DigitsOnly(s)| else max
    ensures r == DigitsOnly(s)[..|r|]
  {
    DigitsOnlySpec(s);
    var d := DigitsOnly(s);
    if |d| <= max then d else d[..max]
  }

  /** Normalising an already normalised value leaves it as it is. */
  lemma KeepDigitsIdempotent(s: string, max: nat)
    ensures KeepDigits(KeepDigits(s, max), max) == KeepDigits(s, max)
  {
    DigitsOnlySpec(KeepDigits(s, max));
  }

  /** A digit string no longer than `max` passes through the normaliser unchanged. */
  lemma KeepDigitsOfDigits(s: string, max: nat)
    requires AllDigits(s) && |s| <= max
    ensures KeepDigits(s, max) == s
  {
    DigitsOnlySpec(s);
  }

  /** `toLowerCase` restricted to the ASCII letters A-Z. */
  function LowerChar(c: char): char {
    if 'A' <= c <= 'Z' then (c as int - 'A' as int + 'a' as int) as char else c
  }

  function ToLower(s: string): (r: string)
    ensures |r| == |s|
    ensures forall i :: 0 <= i < |s| ==> r[i] == LowerChar(s[i])
  {
    seq(|s|, i requires 0 <= i < |s| => LowerChar(s[i]))
  }

  /** Lower-casing twice is lower-casing once, and no ASCII capital is left. */
  lemma ToLowerIdempotent(s: string)
    ensures ToLower(ToLower(s)) == ToLower(s)
    ensures forall c :: c in ToLower(s) ==> !('A' <= c <= 'Z')
  {
  }

  /** `q` occurs in `s` starting at position `i`. */
  predicate OccursAt(s: string, q: string, i: nat) {
    i + |q| <= |s| && s[i..i + |q|] == q
  }

  /** `s.includes(q)`: scans `s` from the left for an occurrence of `q`. */
  predicate Includes(s: string, q: string)
    decreases |s|
  {
    (|q| <= |s| && s[..|q|] == q) || (s != [] && Includes(s[1..], q))
  }

  /** The scan finds `q` exactly when `q` occurs somewhere in `s`. */
  lemma {:induction false} IncludesSpec(s: string, q: string)
    ensures Includes(s, q) <==> exists i: nat :: OccursAt(s, q, i)
    decreases |s|
  {
    if |q| <= |s| && s[..|q|] == q {
      assert OccursAt(s, q, 0);
    } else if s == [] {
      forall i: nat ensures !OccursAt(s, q, i) {
      }
    } else {
      IncludesSpec(s[1..], q);
      if Includes(s[1..], q) {
        var i: nat :| OccursAt(s[1..], q, i);
        assert s[i + 1..i + 1 + |q|] == s[1..][i..i + |q|];
        assert OccursAt(s, q, i + 1);
      } else {
        forall i: nat | OccursAt(s, q, i) ensures false {
          if i > 0 {
            assert s[1..][i - 1..i - 1 + |q|] == s[i..i + |q|];
            assert OccursAt(s[1..], q, i - 1);
          }
        }
      }
    }
  }

  /** Whatever sits in the middle of a concatenation is included in it. */
  lemma IncludesInfix(a: string, b: string, c: string)
    ensures Includes(a + b + c, b)
  {
    var s := a + b + c;
    assert s[|a|..|a| + |b|] == b;
    assert OccursAt(s, b, |a|);
    IncludesSpec(s, b);
  }

  /** The empty string is included in every string. */
  lemma IncludesEmpty(s: string)
    ensures Includes(s, "")
  {
    assert s[..0] == "";
  }

  /** A query that holds a character `s` lacks is not included in `s`. */
  lemma IncludesNeedsChar(s: string, q: string, c: char)
    requires c in q && c !in s
    ensures !Includes(s, q)
  {
    IncludesSpec(s, q);
  }

  /** Decimal digit for 0..9. */
  function DigitChar(d: nat): (c: char)
    requires d < 10
    ensures IsDigit(c)
  {
    ('0' as int + d) as char
  }

  function DigitValue(c: char): nat
    requires IsDigit(c)
  {
    c as int - '0' as int
  }

  /** `n.toString()` for a non-negative integer: its decimal digits. */
  function DecimalString(n: nat): (r: string)
    ensures |r| >= 1 && AllDigits(r)
  {
    if n < 10 then [DigitChar(n)] else DecimalString(n / 10) + [DigitChar(n % 10)]
  }

  /** Reading a digit string as a decimal number. */
  function DecimalValue(s: string): nat
    requires AllDigits(s)
  {
    if s == [] then 0 else 10 * DecimalValue(s[..|s| - 1]) + DigitValue(s[|s| - 1])
  }

  /** Reading back the decimal string of `n` gives `n`. */
  lemma {:induction false} DecimalRoundTrip(n: nat)
    ensures DecimalValue(DecimalString(n)) == n
  {
    var s := DecimalString(n);
    if n >= 10 {
      DecimalRoundTrip(n / 10);
      assert s[..|s| - 1] == DecimalString(n / 10);
    }
  }

  function Pow10(k: nat): (p: nat)
    ensures p >= 1
  {
    if k == 0 then 1 else 10 * Pow10(k - 1)
  }

  /** A number with `k` decimal digits prints as `k` characters. */
  lemma {:induction false} DecimalLength(n: nat, k: nat)
    requires 1 <= k && Pow10(k - 1) <= n < Pow10(k)
    ensures |DecimalString(n)| == k
  {
    if k > 1 {
      assert Pow10(k - 1) == 10 * Pow10(k - 2);
      DecimalLength(n / 10, k - 1);
    }
  }

  /** What the OTP input accepts at most: exactly six digits. */
  predicate IsSixDigitCode(s: string) {
    |s| == 6 && AllDigits(s)
  }

  /** Every number in [100000, 999999] prints as a six-digit code, and the
      code reads back as the number. */
  lemma SixDigitCode(n: nat)
    requires 100000 <= n <= 999999
    ensures IsSixDigitCode(DecimalString(n))
    ensures DecimalValue(DecimalString(n)) == n
  {
    assert Pow10(5) == 100000 && Pow10(6) == 1000000;
    DecimalLength(n, 6);
    DecimalRoundTrip(n);
  }
}
