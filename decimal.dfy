/** Python's str() of an integer and int() of a string, on ASCII decimal text. */
module Decimal {
  import opened Wrappers

  predicate IsDigit(c: char) { '0' <= c <= '9' }

  predicate AllDigits(s: string)
  {
    forall i :: 0 <= i < |s| ==> IsDigit(s[i])
  }

  function DigitValue(c: char): nat
    requires IsDigit(c)
  {
    (c as int) - ('0' as int)
  }

  function DigitChar(d: nat): (c: char)
    requires d < 10
    ensures IsDigit(c) && DigitValue(c) == d
  {
    (('0' as int) + d) as char
  }

  function Pow10(k: nat): (r: nat)
    ensures r >= 1
  {
    if k == 0 then 1 else 10 * Pow10(k - 1)
  }

  /** The number a string of decimal digits denotes (leading zeros allowed). */
  function ValueOf(s: string): nat
    requires AllDigits(s)
  {
    if s == [] then 0 else ValueOf(s[..|s| - 1]) * 10 + DigitValue(s[|s| - 1])
  }

  /** str(n) for n >= 0: the shortest digit string denoting n. */
  function Digits(n: nat): (s: string)
    ensures AllDigits(s) && |s| >= 1
    ensures ValueOf(s) == n
    ensures |s| > 1 ==> s[0] != '0'
  {
    if n < 10 then [DigitChar(n)]
    else
      var s := Digits(n / 10) + [DigitChar(n % 10)];
      assert s[..|s| - 1] == Digits(n / 10);
      s
  }

  /** str(i) for any integer. */
  function IntToString(i: int): string
  {
    if i < 0 then "-" + Digits(-i) else Digits(i)
  }

  /** What int(s) accepts here: an optional sign, then at least one digit. */
  predicate IsIntLiteral(s: string)
  {
    if |s| > 0 && (s[0] == '+' || s[0] == '-') then |s| > 1 && AllDigits(s[1..])
    else |s| > 0 && AllDigits(s)
  }

  /** int(s): None where Python raises ValueError. */
  function ParseInt(s: string): (r: Option<int>)
    ensures r.Some? <==> IsIntLiteral(s)
  {
    if |s| > 0 && (s[0] == '+' || s[0] == '-') then
      if |s| > 1 && AllDigits(s[1..]) then
        Some(if s[0] == '-' then -(ValueOf(s[1..]) as int) else ValueOf(s[1..]))
      else None
    else if |s| > 0 && AllDigits(s) then Some(ValueOf(s))
    else None
  }

  /** int(str(i)) == i. */
  lemma ParseIntOfIntToString(i: int)
    ensures ParseInt(IntToString(i)) == Some(i)
  {
    var s := IntToString(i);
    if i < 0 {
      assert s[1..] == Digits(-i);
    } else {
      assert s == Digits(i);
      assert s[0] != '-' && s[0] != '+';
    }
  }

  /** Reading the concatenation of two digit strings as one number. */
  lemma {:induction false} ValueOfAppend(a: string, b: string)
    requires AllDigits(a) && AllDigits(b)
    ensures AllDigits(a + b)
    ensures ValueOf(a + b) == ValueOf(a) * Pow10(|b|) + ValueOf(b)
  {
    if b != [] {
      var b' := b[..|b| - 1];
      var c := b[|b| - 1];
      assert (a + b)[..|a + b| - 1] == a + b';
      assert (a + b)[|a + b| - 1] == c;
      ValueOfAppend(a, b');
      var x, y, q := ValueOf(a), ValueOf(b'), Pow10(|b'|);
      assert Pow10(|b|) == 10 * q;
      assert ValueOf(b) == y * 10 + DigitValue(c);
      assert ValueOf(a + b) == (x * q + y) * 10 + DigitValue(c);
      ShiftDigit(x, q, y);
    } else {
      assert a + b == a;
    }
  }

  lemma ShiftDigit(x: int, q: int, y: int)
    ensures (x * q + y) * 10 == x * (10 * q) + y * 10
  {
  }

  /** Leading zeros do not change the value, so int() forgets them. */
  lemma LeadingZeroIgnored(s: string)
    requires AllDigits(s)
    ensures AllDigits("0" + s) && ValueOf("0" + s) == ValueOf(s)
  {
    ValueOfAppend("0", s);
    assert ValueOf("0") == 0 by { assert "0"[..0] == ""; }
  }

  lemma {:induction false} AllDigitsAppend(a: string, b: string)
    ensures AllDigits(a + b) <==> AllDigits(a) && AllDigits(b)
  {
    if AllDigits(a) && AllDigits(b) {
      forall i | 0 <= i < |a + b| ensures IsDigit((a + b)[i]) {
        if i < |a| {
          assert (a + b)[i] == a[i];
        } else {
          assert (a + b)[i] == b[i - |a|];
        }
      }
    }
    if AllDigits(a + b) {
      forall i | 0 <= i < |a| ensures IsDigit(a[i]) {
        assert (a + b)[i] == a[i];
      }
      forall i | 0 <= i < |b| ensures IsDigit(b[i]) {
        assert (a + b)[|a| + i] == b[i];
      }
    }
  }

  /** A string of k digits denotes a number below 10^k. */
  lemma {:induction false} ValueOfBound(s: string)
    requires AllDigits(s)
    ensures ValueOf(s) < Pow10(|s|)
  {
    if s != [] {
      ValueOfBound(s[..|s| - 1]);
    }
  }

  lemma {:induction false} Pow10Add(a: nat, b: nat)
    ensures Pow10(a + b) == Pow10(a) * Pow10(b)
  {
    if b > 0 {
      Pow10Add(a, b - 1);
      assert Pow10(a + b) == 10 * Pow10(a + b - 1);
    }
  }

  /** Numbers from 10^k up to 10^(k+1) - 1 have k + 1 digits. */
  lemma {:induction false} DigitsLength(n: nat, k: nat)
    requires Pow10(k) <= n < Pow10(k + 1)
    ensures |Digits(n)| == k + 1
  {
    if k > 0 {
      DigitsLength(n / 10, k - 1);
    }
  }
}
