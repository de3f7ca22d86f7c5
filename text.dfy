/** Python's `str` on integers, used to key the grouped sources. */
module Text {

  /** The decimal digit character for `d`. */
  function DigitChar(d: nat): (c: char)
    requires d < 10
    ensures '0' <= c <= '9'
  {
    ('0' as int + d) as char
  }

  ghost predicate AllDigits(s: string) {
    forall i :: 0 <= i < |s| ==> '0' <= s[i] <= '9'
  }

  /** Decimal notation of a natural number, without leading zeros. */
  function NatToString(n: nat): (s: string)
    ensures |s| >= 1 && AllDigits(s)
    ensures |s| == 1 <==> n < 10
  {
    if n < 10 then [DigitChar(n)] else NatToString(n / 10) + [DigitChar(n % 10)]
  }

  /** Python's `str(i)` for an integer: a minus sign before the digits of a negative number. */
  function IntToString(i: int): (s: string)
    ensures |s| >= 1
    ensures s[0] == '-' <==> i < 0
  {
    if i < 0 then "-" + NatToString(-i) else NatToString(i)
  }

  /** Distinct natural numbers have distinct decimal notations. */
  lemma {:induction false} NatToStringInjective(a: nat, b: nat)
    requires NatToString(a) == NatToString(b)
    ensures a == b
  {
    var s := NatToString(a);
    if a >= 10 && b >= 10 {
      assert s[..|s| - 1] == NatToString(a / 10) && s[..|s| - 1] == NatToString(b / 10);
      NatToStringInjective(a / 10, b / 10);
      assert s[|s| - 1] == DigitChar(a % 10) == DigitChar(b % 10);
    } else if a < 10 && b < 10 {
      assert s[0] == DigitChar(a) == DigitChar(b);
    }
  }

  /** `str` is injective on integers, so distinct group labels give distinct keys. */
  lemma IntToStringInjective(a: int, b: int)
    requires IntToString(a) == IntToString(b)
    ensures a == b
  {
    var s := IntToString(a);
    if a < 0 && b < 0 {
      assert s[1..] == NatToString(-a) && s[1..] == NatToString(-b);
      NatToStringInjective(-a, -b);
    } else if a >= 0 && b >= 0 {
      NatToStringInjective(a, b);
    }
  }

  /** `str` of the labels of a list: equal strings exactly at equal labels. */
  lemma IntToStringsInjective(ks: seq<int>)
    ensures forall i, j :: 0 <= i < |ks| && 0 <= j < |ks| ==> (IntToString(ks[i]) == IntToString(ks[j]) <==> ks[i] == ks[j])
  {
    forall i, j | 0 <= i < |ks| && 0 <= j < |ks| && IntToString(ks[i]) == IntToString(ks[j])
      ensures ks[i] == ks[j]
    {
      IntToStringInjective(ks[i], ks[j]);
    }
  }
}
