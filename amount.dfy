/**
 * The amount field of the refuel form and the ticket rule.
 *
 * Amounts are kept as integer cents. The form field holds only the digits
 * the user typed; on submit those digits are read as a number of cents.
 */
module Amount {

  /** One ticket per 50 currency units, that is per 5000 cents, of a single refuel. */
  const CentsPerTicket: nat := 5000

  /** `calcularTickets`: the tickets earned by one refuel of `cents`, rounded down. */
  function TicketsFor(cents: nat): (t: nat)
    ensures t * CentsPerTicket <= cents < (t + 1) * CentsPerTicket
  {
    cents / CentsPerTicket
  }

  /** The rule is per refuel: splitting one refuel in two never earns more tickets. */
  lemma SplitRefuelNeverGains(a: nat, b: nat)
    ensures TicketsFor(a) + TicketsFor(b) <= TicketsFor(a + b)
  {
  }

  /** The characters matched by `\d` (ASCII digits only, the regex has no `u` flag). */
  predicate IsDigit(c: char) {
    '0' <= c <= '9'
  }

  predicate IsDigits(s: string) {
    forall i :: 0 <= i < |s| ==> IsDigit(s[i])
  }

  /** `replace(/[^\d]/g, "")`: the digit characters of `s`, in their order. */
  function KeepDigits(s: string): (r: string)
    ensures IsDigits(r)
    ensures |r| <= |s|
  {
    if s == [] then []
    else (if IsDigit(s[0]) then [s[0]] else []) + KeepDigits(s[1..])
  }

  /** The filter works character by character: it distributes over concatenation. */
  lemma {:induction false} KeepDigitsAppend(a: string, b: string)
    ensures KeepDigits(a + b) == KeepDigits(a) + KeepDigits(b)
  {
    if a != [] {
      assert (a + b)[1..] == a[1..] + b;
      KeepDigitsAppend(a[1..], b);
    } else {
      assert a + b == b;
    }
  }

  /** On one character the filter keeps it exactly when it is a digit. */
  lemma KeepDigitsChar(c: char)
    ensures KeepDigits([c]) == if IsDigit(c) then [c] else []
  {
    assert [c][1..] == [];
  }

  /** The strings the filter leaves alone are exactly the digit strings. */
  lemma {:induction false} KeepDigitsFixedPoint(s: string)
    ensures KeepDigits(s) == s <==> IsDigits(s)
  {
    if s != [] && IsDigits(s) {
      assert IsDigits(s[1..]);
      KeepDigitsFixedPoint(s[1..]);
      assert [s[0]] + s[1..] == s;
    }
  }

  /** Filtering twice is the same as filtering once. */
  lemma KeepDigitsIdempotent(s: string)
    ensures KeepDigits(KeepDigits(s)) == KeepDigits(s)
  {
    KeepDigitsFixedPoint(KeepDigits(s));
  }

  function DigitValue(c: char): (d: nat)
    requires IsDigit(c)
    ensures d < 10
  {
    (c as int) - ('0' as int)
  }

  function DigitChar(d: nat): (c: char)
    requires d < 10
    ensures IsDigit(c) && DigitValue(c) == d
  {
    (('0' as int) + d) as char
  }

  function Pow10(k: nat): (p: nat)
    ensures p >= 1
  {
    if k == 0 then 1 else 10 * Pow10(k - 1)
  }

  /**
   * `Number(valor)` on a field that holds only digits: the decimal value of
   * the digits (the empty field reads as 0). On submit this is the amount in
   * cents, since `Number(valor) / 100` is the amount in currency units.
   */
  function DigitsValue(s: string): (n: nat)
    requires IsDigits(s)
    ensures n < Pow10(|s|)
  {
    if s == [] then 0
    else DigitsValue(s[..|s| - 1]) * 10 + DigitValue(s[|s| - 1])
  }

  /** The decimal digits of `n`, without leading zeros. */
  function DecimalDigits(n: nat): (s: string)
    ensures IsDigits(s) && |s| >= 1
  {
    if n < 10 then [DigitChar(n)]
    else DecimalDigits(n / 10) + [DigitChar(n % 10)]
  }

  /** Every amount in cents can be typed into the field and is read back unchanged. */
  lemma {:induction false} DigitsValueOfDecimal(n: nat)
    ensures DigitsValue(DecimalDigits(n)) == n
  {
    if n >= 10 {
      var p := DecimalDigits(n / 10);
      DigitsValueOfDecimal(n / 10);
      assert DecimalDigits(n)[..|p|] == p;
    }
  }

  /** A leading zero typed into the field does not change the amount. */
  lemma {:induction false} LeadingZeroIgnored(s: string)
    requires IsDigits(s)
    ensures IsDigits("0" + s) && DigitsValue("0" + s) == DigitsValue(s)
  {
    if s != [] {
      var t := "0" + s;
      assert t[..|t| - 1] == "0" + s[..|s| - 1];
      LeadingZeroIgnored(s[..|s| - 1]);
    }
  }
}
