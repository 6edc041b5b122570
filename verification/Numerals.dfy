/** Numerals as the standard formatter writes them: decimal, and lower-case hexadecimal. */
module Numerals {
  import opened Wrappers
  import opened Words
  import opened JsonText

  function DigitChar(d: nat): char
    requires d < 16
  {
    if d < 10 then ('0' as int + d) as char else ('a' as int + (d - 10)) as char
  }

  // No leading zeros, except for zero itself.
  function Digits(n: nat, base: nat): (s: string)
    requires 2 <= base <= 16
    ensures s != ""
    decreases n
  {
    if n < base then [DigitChar(n)] else Digits(n / base, base) + [DigitChar(n % base)]
  }

  function Decimal(n: nat): string {
    Digits(n, 10)
  }

  function Hex(n: nat): string {
    Digits(n, 16)
  }

  // At least four digits.
  function Hex04(n: nat): string {
    (if n < 0x10 then "000" else if n < 0x100 then "00" else if n < 0x1000 then "0" else "") + Hex(n)
  }

  function Value(s: string, base: nat): nat {
    if s == "" then 0
    else
      var last := HexValue(s[|s| - 1]);
      Value(s[..|s| - 1], base) * base + if last.Some? then last.value else 0
  }

  lemma DigitCharIs(d: nat)
    requires d < 16
    ensures HexValue(DigitChar(d)) == Some(d) && (d < 10 ==> IsDigit(DigitChar(d)))
    ensures DigitChar(d) == '0' <==> d == 0
  {
  }

  lemma DigitsStep(n: nat, base: nat)
    requires 2 <= base <= 16 && n >= base
    ensures 0 < n / base < n && n % base < 16 && n == n / base * base + n % base
    ensures Digits(n, base) == Digits(n / base, base) + [DigitChar(n % base)]
  {
    hide DigitChar;
  }

  lemma ValueSnoc(s: string, c: char, base: nat)
    requires HexValue(c).Some?
    ensures Value(s + [c], base) == Value(s, base) * base + HexValue(c).value
  {
    assert (s + [c])[..|s|] == s;
    hide HexValue;
  }

  /** Reading a numeral back gives the number; so different numbers have different numerals. */
  lemma {:induction false} ValueOfDigits(n: nat, base: nat)
    requires 2 <= base <= 16
    ensures Value(Digits(n, base), base) == n
    decreases n
  {
    if n < base {
      DigitCharIs(n);
      ValueSnoc("", DigitChar(n), base);
      assert Digits(n, base) == "" + [DigitChar(n)];
    } else {
      DigitsStep(n, base);
      DigitCharIs(n % base);
      hide *;
      ValueOfDigits(n / base, base);
      ValueSnoc(Digits(n / base, base), DigitChar(n % base), base);
    }
  }

  lemma {:induction false} DigitsAreDigits(n: nat, base: nat, i: nat)
    requires 2 <= base <= 16 && i < |Digits(n, base)|
    ensures HexValue(Digits(n, base)[i]).Some? && (base == 10 ==> IsDigit(Digits(n, base)[i]))
    ensures i == 0 ==> (Digits(n, base)[0] == '0' <==> n == 0)
    decreases n
  {
    if n < base {
      DigitCharIs(n);
    } else {
      DigitsStep(n, base);
      DigitCharIs(n % base);
      hide *;
      if i < |Digits(n / base, base)| {
        DigitsAreDigits(n / base, base, i);
      }
    }
  }

  // The number without its last i digits.
  function Shifted(n: nat, base: nat, i: nat): nat
    requires 2 <= base
  {
    if i == 0 then n else Shifted(n / base, base, i - 1)
  }

  lemma ShiftedStep(n: nat, base: nat, i: nat)
    requires 2 <= base
    ensures Shifted(n, base, i) == if i == 0 then n else Shifted(n / base, base, i - 1)
  {
  }

  lemma DigitCharAt(d: nat)
    requires d < 16
    ensures DigitChar(d) == "0123456789abcdef"[d]
  {
  }

  lemma DigitSnoc(s: string, c: char, i: nat)
    requires i <= |s|
    ensures (s + [c])[|s| - i] == if i == 0 then c else s[|s| - i]
  {
  }

  /** Digit i from the right is that of weight base to the i, in lower case; there are no more digits than needed. */
  lemma {:induction false} DigitAt(n: nat, base: nat, i: nat)
    requires 2 <= base <= 16
    ensures var s := Digits(n, base);
            && (i < |s| ==> s[|s| - 1 - i] == "0123456789abcdef"[Shifted(n, base, i) % base])
            && Shifted(n, base, |s|) == 0 && (|s| > 1 ==> Shifted(n, base, |s| - 1) > 0)
    decreases n
  {
    if n < base {
      assert Digits(n, base) == [DigitChar(n)] && Shifted(n, base, 1) == n / base;
      DigitCharAt(n);
      ModUnique(n, base, 0, n);
      hide *;
      ShiftedStep(n, base, 0);
    } else {
      DigitsStep(n, base);
      DigitCharAt(n % base);
      hide *;
      var rest := Digits(n / base, base);
      DigitAt(n / base, base, if i == 0 then 0 else i - 1);
      ShiftedStep(n, base, i);
      ShiftedStep(n, base, |rest| + 1);
      ShiftedStep(n, base, |rest|);
      ShiftedStep(n / base, base, 0);
      if i <= |rest| {
        DigitSnoc(rest, DigitChar(n % base), i);
      }
    }
  }

  lemma {:induction false} DigitsEndAt(s: string, i: nat, e: nat)
    requires i <= e <= |s|
    requires forall k :: i <= k < e ==> IsDigit(s[k])
    requires e < |s| ==> !IsDigit(s[e])
    ensures DigitsEnd(s, i) == e
    decreases e - i
  {
    if i < e {
      DigitsEndAt(s, i + 1, e);
    }
  }

  /** A decimal numeral is a JSON number. */
  lemma DecimalIsNumber(n: nat)
    ensures IsNumber(Decimal(n))
  {
    var s := Decimal(n);
    forall k: nat | k < |s| ensures IsDigit(s[k]) {
      DigitsAreDigits(n, 10, k);
    }
    DigitsAreDigits(n, 10, 0);
    DigitsEndAt(s, 1, |s|);
    if n == 0 {
      assert s == "0";
    }
  }
}
