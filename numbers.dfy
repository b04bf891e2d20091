/**
 * Decimal rendering of integers as JavaScript's template literals produce it
 * (`${n}` for an integral number), and the en-US grouping that
 * `Number.prototype.toLocaleString` applies to money amounts, here held in
 * integer cents.
 */
module Numbers {

  predicate IsDigit(c: char) {
    '0' <= c <= '9'
  }

  predicate AllDigits(s: string) {
    forall i :: 0 <= i < |s| ==> IsDigit(s[i])
  }

  function DigitChar(d: nat): (c: char)
    requires d < 10
    ensures IsDigit(c)
  {
    ('0' as int + d) as char
  }

  function DigitValue(c: char): (d: nat)
    requires IsDigit(c)
    ensures d < 10 && DigitChar(d) == c
  {
    c as int - '0' as int
  }

  /** The shortest decimal numeral of `n`: digits only, no leading zero. */
  function NatToString(n: nat): (s: string)
    ensures |s| >= 1 && AllDigits(s)
    ensures s[0] == '0' <==> n == 0
    decreases n
  {
    if n < 10 then [DigitChar(n)] else NatToString(n / 10) + [DigitChar(n % 10)]
  }

  /** The value of a numeral, most significant digit first. */
  function ParseNat(s: string): nat
    requires AllDigits(s)
  {
    if s == [] then 0 else ParseNat(s[..|s| - 1]) * 10 + DigitValue(s[|s| - 1])
  }

  lemma {:induction false} ParseNatToString(n: nat)
    ensures ParseNat(NatToString(n)) == n
    decreases n
  {
    if n >= 10 {
      var s := NatToString(n);
      assert s[..|s| - 1] == NatToString(n / 10);
      ParseNatToString(n / 10);
    }
  }

  /** NatToString is injective: distinct numbers never print alike. */
  lemma NatToStringInjective(m: nat, n: nat)
    requires NatToString(m) == NatToString(n)
    ensures m == n
  {
    ParseNatToString(m);
    ParseNatToString(n);
  }

  function IntToString(i: int): (s: string)
    ensures i >= 0 ==> s == NatToString(i)
    ensures i < 0 ==> s == "-" + NatToString(-i)
  {
    if i < 0 then "-" + NatToString(-i) else NatToString(i)
  }

  /** Three digits, zero-padded on the left. */
  function Pad3(k: nat): (s: string)
    requires k < 1000
    ensures |s| == 3 && AllDigits(s)
  {
    [DigitChar(k / 100), DigitChar(k / 10 % 10), DigitChar(k % 10)]
  }

  /**
   * Digits in groups of three counted from the right, a comma between
   * groups, and a leading group of one to three digits.
   */
  predicate Grouped(r: string) {
    && |r| % 4 != 0
    && (forall i :: 0 <= i < |r| ==> r[i] == ',' || IsDigit(r[i]))
    && (forall i :: 0 <= i < |r| ==> (r[i] == ',' <==> (|r| - i) % 4 == 0))
  }

  /** `n` with a comma between each group of three digits, as en-US prints it. */
  function GroupThousands(n: nat): (r: string)
    ensures Grouped(r)
    decreases n
  {
    if n < 1000 then
      NatToStringShort(n);
      NatToString(n)
    else
      GroupedAppend(GroupThousands(n / 1000), Pad3(n % 1000));
      GroupThousands(n / 1000) + "," + Pad3(n % 1000)
  }

  /** One more group of three digits after a comma keeps the grouping. */
  lemma GroupedAppend(head: string, tail: string)
    requires Grouped(head) && |tail| == 3 && AllDigits(tail)
    ensures Grouped(head + "," + tail)
  {
    var r := head + "," + tail;
    forall i | 0 <= i < |r|
      ensures r[i] == ',' || IsDigit(r[i])
      ensures r[i] == ',' <==> (|r| - i) % 4 == 0
    {
      if i < |head| {
        assert r[i] == head[i];
        ModFourShift(|head| - i);
      } else if i > |head| {
        assert r[i] == tail[i - |head| - 1];
      }
    }
    ModFourShift(|head|);
  }

  lemma ModFourShift(d: int)
    ensures (d + 4) % 4 == d % 4
  {
  }

  /** Below a thousand, a numeral has at most three digits. */
  lemma NatToStringShort(n: nat)
    requires n < 1000
    ensures |NatToString(n)| <= 3
  {
    if n >= 10 {
      assert |NatToString(n)| == |NatToString(n / 10)| + 1;
      if n / 10 >= 10 {
        assert |NatToString(n / 10)| == |NatToString(n / 100)| + 1;
      }
    }
  }

  /** The string with every comma removed. */
  function Ungroup(s: string): (r: string)
    ensures forall i :: 0 <= i < |r| ==> r[i] != ','
  {
    if s == [] then []
    else Ungroup(s[..|s| - 1]) + (if s[|s| - 1] == ',' then [] else [s[|s| - 1]])
  }

  lemma {:induction false} UngroupAppend(a: string, b: string)
    ensures Ungroup(a + b) == Ungroup(a) + Ungroup(b)
    decreases |b|
  {
    if b == [] {
      assert a + b == a;
    } else {
      var b' := b[..|b| - 1];
      assert (a + b)[..|a + b| - 1] == a + b';
      UngroupAppend(a, b');
    }
  }

  lemma UngroupDigits(s: string)
    requires AllDigits(s)
    ensures Ungroup(s) == s
  {
    if s != [] {
      UngroupDigits(s[..|s| - 1]);
    }
  }

  lemma DivModTen(n: nat, q: nat, d: nat)
    requires n == 10 * q + d && d < 10
    ensures n / 10 == q && n % 10 == d
  {
  }

  lemma {:induction false} NatToStringSplit3(n: nat)
    requires n >= 1000
    ensures NatToString(n) == NatToString(n / 1000) + Pad3(n % 1000)
  {
    var k := n % 1000;
    LastThreeDigits(n);
    var head := NatToString(n / 1000);
    assert NatToString(n / 100) == head + [DigitChar(k / 100)];
    assert NatToString(n / 10) == NatToString(n / 100) + [DigitChar(k / 10 % 10)];
    assert NatToString(n) == NatToString(n / 10) + [DigitChar(k % 10)];
    SnocThree(head, DigitChar(k / 100), DigitChar(k / 10 % 10), DigitChar(k % 10));
  }

  /** The last three decimal digits of `n`, peeled off one at a time, are those of `n % 1000`. */
  lemma LastThreeDigits(n: nat)
    requires n >= 1000
    ensures n / 10 >= 10 && n / 100 >= 10
    ensures n / 100 / 10 == n / 1000 && n / 10 / 10 == n / 100
    ensures n / 100 % 10 == n % 1000 / 100
    ensures n / 10 % 10 == n % 1000 / 10 % 10
    ensures n % 10 == n % 1000 % 10
  {
    var t, k := n / 1000, n % 1000;
    var d2, d1, d0 := k / 100, k / 10 % 10, k % 10;
    assert k == 100 * d2 + 10 * d1 + d0;
    DivModTen(n, 100 * t + 10 * d2 + d1, d0);
    DivModTen(100 * t + 10 * d2 + d1, 10 * t + d2, d1);
    DivModTen(10 * t + d2, t, d2);
  }

  lemma SnocThree<T>(s: seq<T>, a: T, b: T, c: T)
    ensures s + [a] + [b] + [c] == s + [a, b, c]
  {
  }

  /** Dropping the grouping commas gives back the plain numeral. */
  lemma {:induction false} UngroupGroupThousands(n: nat)
    ensures Ungroup(GroupThousands(n)) == NatToString(n)
    decreases n
  {
    if n < 1000 {
      UngroupDigits(NatToString(n));
    } else {
      UngroupGroupThousands(n / 1000);
      UngroupAppend(GroupThousands(n / 1000) + ",", Pad3(n % 1000));
      UngroupAppend(GroupThousands(n / 1000), ",");
      UngroupDigits(Pad3(n % 1000));
      NatToStringSplit3(n);
    }
  }

  /** The fractional part of an amount of cents, with trailing zeros dropped. */
  function CentsFraction(c: nat): (r: string)
    requires c < 100
    ensures r == [] <==> c == 0
    ensures forall i :: 0 <= i < |r| ==> r[i] == '.' || IsDigit(r[i])
  {
    if c == 0 then ""
    else if c % 10 == 0 then "." + [DigitChar(c / 10)]
    else "." + [DigitChar(c / 10), DigitChar(c % 10)]
  }

  /**
   * `(cents / 100).toLocaleString()` in the en-US locale: an optional minus
   * sign, the grouped dollars, and up to two fraction digits.
   */
  function FormatAmount(cents: int): (r: string)
    ensures |r| > 0 && (r[0] == '-' <==> cents < 0)
    ensures forall i :: 1 <= i < |r| ==> r[i] == ',' || r[i] == '.' || IsDigit(r[i])
  {
    var m := if cents < 0 then -cents else cents;
    (if cents < 0 then "-" else "") + GroupThousands(m / 100) + CentsFraction(m % 100)
  }

  /** A string without commas is left as it is. */
  lemma {:induction false} UngroupNoCommas(s: string)
    requires forall i :: 0 <= i < |s| ==> s[i] != ','
    ensures Ungroup(s) == s
  {
    if s != [] {
      UngroupNoCommas(s[..|s| - 1]);
    }
  }

  /**
   * The commas of a formatted amount are only the grouping ones: without
   * them it is the sign, the plain numeral of the whole dollars and the
   * fraction.
   */
  lemma FormatAmountUngrouped(cents: int)
    ensures var m := if cents < 0 then -cents else cents;
      Ungroup(FormatAmount(cents)) == (if cents < 0 then "-" else "") + NatToString(m / 100) + CentsFraction(m % 100)
  {
    var m := if cents < 0 then -cents else cents;
    var sign := if cents < 0 then "-" else "";
    var frac := CentsFraction(m % 100);
    assert FormatAmount(cents) == sign + GroupThousands(m / 100) + frac;
    UngroupThree(sign, GroupThousands(m / 100), frac);
    UngroupNoCommas(sign);
    UngroupNoCommas(frac);
    UngroupGroupThousands(m / 100);
  }

  lemma UngroupThree(a: string, b: string, c: string)
    ensures Ungroup(a + b + c) == Ungroup(a) + Ungroup(b) + Ungroup(c)
  {
    UngroupAppend(a + b, c);
    UngroupAppend(a, b);
  }

  /** A whole number of dollars is printed without a fraction. */
  lemma FormatWholeDollars(d: nat)
    ensures FormatAmount(100 * d) == GroupThousands(d)
  {
    var m := 100 * d;
    assert m / 100 == d && m % 100 == 0;
    assert FormatAmount(m) == "" + GroupThousands(m / 100) + CentsFraction(m % 100);
  }
}
