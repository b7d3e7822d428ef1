/** Decimal digits and substrings: what strconv, strings and fmt do to a string. */
module Text {
  predicate IsDigit(c: char) {
    '0' <= c <= '9'
  }

  predicate AllDigits(s: string) {
    forall i | 0 <= i < |s| :: IsDigit(s[i])
  }

  function DigitValue(c: char): nat
    requires IsDigit(c)
  {
    c as int - '0' as int
  }

  function DigitChar(d: nat): (c: char)
    requires d < 10
    ensures IsDigit(c) && DigitValue(c) == d && c == "0123456789"[d]
  {
    ('0' as int + d) as char
  }

  /** The number a run of digits denotes in base ten; the empty run denotes zero. */
  function Value(s: string): nat
    requires AllDigits(s)
  {
    if s == "" then 0 else 10 * Value(s[..|s| - 1]) + DigitValue(s[|s| - 1])
  }

  /** fmt's %d for a non-negative number. */
  function Decimal(n: nat): (s: string)
    ensures s != "" && AllDigits(s)
    ensures if n == 0 then s == "0" else s[0] != '0'
  {
    if n < 10 then [DigitChar(n)] else Decimal(n / 10) + [DigitChar(n % 10)]
  }

  /** Digits count by place. */
  lemma ValueByPlace(s: string, d: nat)
    requires AllDigits(s) && d < 10
    ensures var c := "0123456789"[d];
            AllDigits(s + [c]) && Value(s + [c]) == 10 * Value(s) + d
    ensures AllDigits("") && Value("") == 0
  {
    var c := "0123456789"[d];
    assert c == DigitChar(d);
    assert (s + [c])[..|s|] == s;
  }

  lemma {:induction false} ValueOfDecimal(n: nat)
    ensures Value(Decimal(n)) == n
  {
    if n >= 10 {
      ValueOfDecimal(n / 10);
      assert Decimal(n)[..|Decimal(n)| - 1] == Decimal(n / 10);
    }
  }

  function Zeros(k: nat): (s: string)
    ensures |s| == k && AllDigits(s) && forall i | 0 <= i < k :: s[i] == '0'
  {
    if k == 0 then "" else Zeros(k - 1) + "0"
  }

  /** A digit run is its number's decimal form after leading zeros, and nothing else. */
  lemma {:induction false} DigitsAreZerosThenDecimal(s: string) returns (k: nat)
    requires AllDigits(s) && Value(s) > 0
    ensures s == Zeros(k) + Decimal(Value(s))
  {
    var init, last := s[..|s| - 1], s[|s| - 1];
    if Value(init) == 0 {
      AllZero(init);
      k := |init|;
      assert s == init + [last];
    } else {
      k := DigitsAreZerosThenDecimal(init);
      assert Value(s) / 10 == Value(init) && Value(s) % 10 == DigitValue(last);
      assert s == init + [last];
      assert Zeros(k) + Decimal(Value(init)) + [last] == Zeros(k) + (Decimal(Value(init)) + [last]);
    }
  }

  lemma {:induction false} AllZero(s: string)
    requires AllDigits(s) && Value(s) == 0
    ensures s == Zeros(|s|)
  {
    if s != "" {
      AllZero(s[..|s| - 1]);
      assert s == s[..|s| - 1] + "0";
    }
  }

  lemma {:induction false} ValueOfZerosThenDigits(k: nat, s: string)
    requires AllDigits(s)
    ensures AllDigits(Zeros(k) + s) && Value(Zeros(k) + s) == Value(s)
  {
    if s == "" {
      assert Zeros(k) + s == Zeros(k);
      if k > 0 {
        ValueOfZerosThenDigits(k - 1, "");
        assert Zeros(k - 1) + "" == Zeros(k - 1);
        assert Zeros(k)[..|Zeros(k)| - 1] == Zeros(k - 1);
      }
    } else {
      ValueOfZerosThenDigits(k, s[..|s| - 1]);
      assert (Zeros(k) + s)[..|Zeros(k) + s| - 1] == Zeros(k) + s[..|s| - 1];
    }
  }

  predicate Free(c: char, s: string) {
    forall i | 0 <= i < |s| :: s[i] != c
  }

  /** strings.Index for a one-character separator, with |s| standing for -1. */
  function IndexOf(s: string, c: char): (i: nat)
    ensures i <= |s| && Free(c, s[..i])
    ensures i < |s| ==> s[i] == c
  {
    if s == "" || s[0] == c then 0 else 1 + IndexOf(s[1..], c)
  }

  lemma {:induction false} IndexOfIsFirst(s: string, c: char, j: nat)
    requires j < |s| && s[j] == c
    ensures IndexOf(s, c) <= j
  {
    if s[0] != c {
      IndexOfIsFirst(s[1..], c, j - 1);
    }
  }

  lemma {:induction false} IndexOfFreePrefix(a: string, c: char, b: string)
    requires Free(c, a)
    ensures IndexOf(a + [c] + b, c) == |a|
  {
    if a != "" {
      assert (a + [c] + b)[1..] == a[1..] + [c] + b;
      assert a[0] != c;
      IndexOfFreePrefix(a[1..], c, b);
    }
  }

  lemma CutAtFirst(s: string, c: char, j: nat) returns (i: nat)
    requires j < |s| && s[j] == c
    ensures i == IndexOf(s, c) <= j
    ensures Free(c, s[..i]) && s == s[..i] + [c] + s[i + 1..]
  {
    IndexOfIsFirst(s, c, j);
    i := IndexOf(s, c);
  }

  /** Splitting at the first separator is unambiguous. */
  lemma FirstSeparatorSplits(a: string, b: string, a': string, b': string, c: char)
    requires Free(c, a) && Free(c, a')
    requires a + [c] + b == a' + [c] + b'
    ensures a == a' && b == b'
  {
    IndexOfFreePrefix(a, c, b);
    IndexOfFreePrefix(a', c, b');
    var s := a + [c] + b;
    assert a == s[..|a|] && a' == s[..|a|];
    assert b == s[|a| + 1..] && b' == s[|a| + 1..];
  }
}
