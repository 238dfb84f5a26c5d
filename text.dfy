/** The decimal formatting the model needs: std::to_string of an int, and sprintf's
    "%03d" for the capture sequence number.  ParseDigits reads a digit string back,
    which is how the formatting is proved unambiguous. */
module Text {

  predicate IsDigit(c: char)
  {
    '0' <= c <= '9'
  }

  predicate AllDigits(s: string)
  {
    forall i :: 0 <= i < |s| ==> IsDigit(s[i])
  }

  function DigitChar(d: int): (c: char)
    requires 0 <= d < 10
    ensures IsDigit(c) && c as int - '0' as int == d
  {
    ('0' as int + d) as char
  }

  function DigitValue(c: char): (d: int)
    requires IsDigit(c)
    ensures 0 <= d < 10 && DigitChar(d) == c
  {
    c as int - '0' as int
  }

  /** The decimal numeral of n, most significant digit first, without leading zeros. */
  function NatToString(n: nat): (s: string)
    ensures 1 <= |s| && AllDigits(s)
    ensures |s| > 1 ==> s[0] != '0'
    ensures n < 10 <==> |s| == 1
  {
    if n < 10 then [DigitChar(n)] else NatToString(n / 10) + [DigitChar(n % 10)]
  }

  /** The value of a digit string read in base ten; the empty string reads as 0. */
  function ParseDigits(s: string): nat
    requires AllDigits(s)
  {
    if |s| == 0 then 0 else ParseDigits(s[..|s| - 1]) * 10 + DigitValue(s[|s| - 1])
  }

  /** std::to_string on an int: a minus sign before the magnitude's numeral. */
  function IntToString(i: int): (s: string)
    ensures i >= 0 ==> s == NatToString(i)
    ensures i < 0 ==> s == "-" + NatToString(-i)
  {
    if i < 0 then "-" + NatToString(-i) else NatToString(i)
  }

  /** Reads back what IntToString writes: an optional minus sign, then digits. */
  function ParseInt(s: string): int
    requires (|s| > 0 && s[0] == '-') ==> AllDigits(s[1..])
    requires (|s| == 0 || s[0] != '-') ==> AllDigits(s)
  {
    if |s| > 0 && s[0] == '-' then -(ParseDigits(s[1..]) as int) else ParseDigits(s)
  }

  /** to_string is read back exactly, sign included, so different ints never share a
      numeral. */
  lemma IntToStringRoundTrip(i: int)
    ensures var s := IntToString(i);
      && ((|s| > 0 && s[0] == '-') ==> AllDigits(s[1..]))
      && ((|s| == 0 || s[0] != '-') ==> AllDigits(s))
      && ParseInt(s) == i
  {
    if i < 0 {
      ParseNatToString(-i);
      assert IntToString(i)[1..] == NatToString(-i);
    } else {
      ParseNatToString(i);
    }
  }

  function Zeros(k: nat): (z: string)
    ensures |z| == k && forall i :: 0 <= i < k ==> z[i] == '0'
  {
    if k == 0 then "" else Zeros(k - 1) + "0"
  }

  /** sprintf's "%03d" for a non-negative argument: the numeral left-padded with zeros
      to at least three characters. */
  function Pad3(n: nat): (s: string)
  {
    var d := NatToString(n);
    if |d| >= 3 then d else Zeros(3 - |d|) + d
  }

  lemma {:induction false} ParseNatToString(n: nat)
    ensures ParseDigits(NatToString(n)) == n
  {
    var s := NatToString(n);
    if n >= 10 {
      ParseNatToString(n / 10);
      assert s[..|s| - 1] == NatToString(n / 10);
    }
  }

  lemma {:induction false} ParseZeros(k: nat)
    ensures AllDigits(Zeros(k)) && ParseDigits(Zeros(k)) == 0
  {
    var z := Zeros(k);
    assert AllDigits(z);
    if k > 0 {
      ParseZeros(k - 1);
      assert z == Zeros(k - 1) + "0";
      assert z[..k - 1] == Zeros(k - 1);
      assert DigitValue(z[k - 1]) == 0;
    }
  }

  /** Leading zeros do not change the value read. */
  lemma {:induction false} ParseLeadingZeros(k: nat, s: string)
    requires AllDigits(s)
    ensures AllDigits(Zeros(k) + s) && ParseDigits(Zeros(k) + s) == ParseDigits(s)
  {
    if |s| == 0 {
      assert Zeros(k) + s == Zeros(k);
      ParseZeros(k);
    } else {
      ParseLeadingZeros(k, s[..|s| - 1]);
      assert (Zeros(k) + s)[..|Zeros(k) + s| - 1] == Zeros(k) + s[..|s| - 1];
    }
  }

  /** "%03d" gives at least three digits, and they read back as the number printed. */
  lemma Pad3RoundTrip(n: nat)
    ensures |Pad3(n)| >= 3 && AllDigits(Pad3(n))
    ensures ParseDigits(Pad3(n)) == n
  {
    var d := NatToString(n);
    ParseNatToString(n);
    if |d| < 3 {
      ParseLeadingZeros(3 - |d|, d);
    }
  }

  /** Distinct numbers print differently under "%03d". */
  lemma Pad3Injective(n: nat, m: nat)
    requires Pad3(n) == Pad3(m)
    ensures n == m
  {
    Pad3RoundTrip(n);
    Pad3RoundTrip(m);
  }

  /** Pad3 is exactly three characters wide below 1000. */
  lemma Pad3Width(n: nat)
    ensures |Pad3(n)| == 3 <==> n < 1000
  {
    if n >= 1000 {
      Pad3RoundTrip(n);
      DigitsBound(Pad3(n));
    } else if n >= 10 {
      assert |NatToString(n / 10)| <= 2 by {
        if n / 10 >= 10 {
          assert NatToString(n / 10) == NatToString(n / 100) + [DigitChar(n / 10 % 10)];
        }
      }
    }
  }

  /** A digit string of length k reads as less than 10^k. */
  lemma {:induction false} DigitsBound(s: string)
    requires AllDigits(s)
    ensures ParseDigits(s) < Power10(|s|)
  {
    if |s| > 0 {
      DigitsBound(s[..|s| - 1]);
    }
  }

  function Power10(k: nat): nat
  {
    if k == 0 then 1 else 10 * Power10(k - 1)
  }
}
