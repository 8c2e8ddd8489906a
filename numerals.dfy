/** Decimal numerals: the rendering JavaScript gives a non-negative integer in a
    template literal, and Rust's `str::parse::<u8>`. */
module Numerals {
  import opened Wrappers

  /** Rust's `u8`. */
  newtype u8 = x: int | 0 <= x < 256

  predicate IsDigit(c: char) {
    '0' <= c <= '9'
  }

  function DigitChar(d: nat): (c: char)
    requires d < 10
    ensures IsDigit(c) && DigitValue(c) == d
  {
    ['0', '1', '2', '3', '4', '5', '6', '7', '8', '9'][d]
  }

  function DigitValue(c: char): nat
    requires IsDigit(c)
  {
    c as int - '0' as int
  }

  predicate AllDigits(s: string) {
    forall i :: 0 <= i < |s| ==> IsDigit(s[i])
  }

  /** The value of a string of decimal digits, most significant first. */
  function DigitsValue(s: string): nat
    requires AllDigits(s)
  {
    if s == [] then 0 else DigitsValue(s[..|s| - 1]) * 10 + DigitValue(s[|s| - 1])
  }

  /** The decimal rendering of `n`: no sign, no leading zero except for 0
      itself. This is what `${n}` gives for a non-negative safe integer. */
  function Decimal(n: nat): (s: string)
    ensures |s| >= 1 && AllDigits(s)
    ensures s[0] == '0' ==> n == 0
  {
    if n < 10 then [DigitChar(n)]
    else
      var prefix := Decimal(n / 10);
      var s := prefix + [DigitChar(n % 10)];
      assert s[..|s| - 1] == prefix;
      s
  }

  /** The rendering reads back as `n`. */
  lemma {:induction false} DecimalValue(n: nat)
    ensures DigitsValue(Decimal(n)) == n
  {
    var s := Decimal(n);
    if n < 10 {
      assert s[..0] == [];
    } else {
      DecimalValue(n / 10);
      assert s[..|s| - 1] == Decimal(n / 10);
    }
  }

  /** Digit strings without a leading zero are exactly the decimal renderings. */
  lemma {:induction false} DecimalOfDigitsValue(s: string)
    requires |s| >= 1 && AllDigits(s) && (s[0] == '0' ==> |s| == 1)
    ensures Decimal(DigitsValue(s)) == s
    decreases |s|, 1
  {
    if |s| == 1 {
      DecimalOfDigit(s);
    } else {
      DecimalOfDigits(s);
    }
  }

  lemma DecimalOfDigit(s: string)
    requires |s| == 1 && AllDigits(s)
    ensures Decimal(DigitsValue(s)) == s
  {
    assert s[..0] == [];
    DigitRoundTrip(s[0]);
    assert s == [s[0]];
  }

  lemma {:induction false} DecimalOfDigits(s: string)
    requires |s| >= 2 && AllDigits(s) && s[0] != '0'
    ensures Decimal(DigitsValue(s)) == s
    decreases |s|, 0
  {
    var p, c := s[..|s| - 1], s[|s| - 1];
    SplitLast(s);
    DigitRoundTrip(c);
    assert AllDigits(p) && p[0] == s[0];
    DigitsAtLeast(p);
    DecimalOfDigitsValue(p);
    var a, d := DigitsValue(p), DigitValue(c);
    assert DigitsValue(s) == a * 10 + d;
    DecimalAppend(a, d);
  }

  /** Appending a digit to a positive number appends its character. */
  lemma DecimalAppend(a: nat, d: nat)
    requires 1 <= a && d < 10
    ensures Decimal(a * 10 + d) == Decimal(a) + [DigitChar(d)]
  {
    LastDigit(a, d);
  }

  lemma SplitLast<T>(s: seq<T>)
    requires |s| >= 1
    ensures s == s[..|s| - 1] + [s[|s| - 1]]
  {
  }

  /** Appending a digit: the quotient and remainder by ten give it back. */
  lemma LastDigit(a: nat, d: nat)
    requires d < 10
    ensures (a * 10 + d) / 10 == a && (a * 10 + d) % 10 == d && a * 10 + d >= 10 * a
  {
  }

  lemma DigitRoundTrip(c: char)
    requires IsDigit(c)
    ensures DigitChar(DigitValue(c)) == c
  {
  }

  /** A digit string not starting with zero is positive, and at least ten
      when it has two digits or more. */
  lemma {:induction false} DigitsAtLeast(s: string)
    requires |s| >= 1 && AllDigits(s) && s[0] != '0'
    ensures DigitsValue(s) >= 1
    ensures |s| >= 2 ==> DigitsValue(s) >= 10
  {
    var p := s[..|s| - 1];
    if |s| == 1 {
      assert p == [];
    } else {
      assert AllDigits(p) && p[0] == s[0];
      DigitsAtLeast(p);
    }
  }

  /** Rust's `<u8 as FromStr>::from_str`: an optional `+`, then one or more
      ASCII digits whose value fits in 8 bits. `-` is refused for unsigned
      types, leading zeros are accepted. The error kind is not modelled. */
  function ParseU8(s: string): (r: Option<u8>)
    ensures r.Some? <==> exists d :: (s == d || s == "+" + d) && d != [] && AllDigits(d) && DigitsValue(d) < 256
    ensures r.Some? ==> forall d :: (s == d || s == "+" + d) && d != [] && AllDigits(d) ==> r.value as int == DigitsValue(d)
  {
    var d := if |s| >= 1 && s[0] == '+' then s[1..] else s;
    assert s == d || s == "+" + d;
    if d != [] && AllDigits(d) && DigitsValue(d) < 256 then Some(DigitsValue(d) as u8) else None
  }

  /** `parse::<u8>` reads back the decimal rendering of every byte value. */
  lemma ParseDecimal(n: nat)
    ensures ParseU8(Decimal(n)) == if n < 256 then Some(n as u8) else None
  {
    var s := Decimal(n);
    DecimalValue(n);
    if n < 256 {
      assert (s == s || s == "+" + s) && s != [] && AllDigits(s) && DigitsValue(s) < 256;
    }
  }

  /** Accepted: plain digits, a leading `+`, leading zeros, the largest byte. */
  lemma ParseAccepts()
    ensures ParseU8("12") == Some(12)
    ensures ParseU8("+7") == Some(7)
    ensures ParseU8("007") == Some(7)
    ensures ParseU8("1") == Some(1)
  {
    assert DigitsValue("1") == 1 by { assert "1"[..0] == ""; }
    assert DigitsValue("12") == 12 by { assert "12"[..1] == "1"; assert "1"[..0] == ""; }
    assert "+7" == "+" + "7";
    assert DigitsValue("7") == 7 by { assert "7"[..0] == ""; }
    assert DigitsValue("007") == 7 by {
      assert "007"[..2] == "00"; assert "00"[..1] == "0"; assert "0"[..0] == "";
    }
  }

  /** Refused: a value above 255, which makes the whole extraction fail. */
  lemma ParseRejectsOverflow()
    ensures ParseU8("256") == None
  {
    assert DigitsValue("256") == 256 by {
      assert "256"[..2] == "25"; assert "25"[..1] == "2"; assert "2"[..0] == "";
    }
  }

  /** Refused: a minus sign, a lone `+`, a trailing letter and a colon. */
  lemma ParseRejectsNonDigits()
    ensures ParseU8("-1") == None
    ensures ParseU8("+") == None
    ensures ParseU8("11E") == None
    ensures ParseU8("1: A") == None
  {
    assert !AllDigits("-1") by { assert "-1"[0] == '-'; }
    assert !AllDigits("11E") by { assert "11E"[2] == 'E'; }
    assert !AllDigits("1: A") by { assert "1: A"[1] == ':'; }
    assert "+"[1..] == "";
  }
}
