/** get_number<uint8_t> of parser_helper.h, after the JSON search has found the text. */
module Numbers {
  import opened Base

  const INT_MAX := 0x7fff_ffff

  predicate IsDigit(c: char) { '0' <= c <= '9' }

  function DigitOf(c: char): (d: nat)
    requires IsDigit(c)
    ensures d < 10
  {
    c as int - '0' as int
  }

  predicate Digits(s: string) { forall i :: 0 <= i < |s| ==> IsDigit(s[i]) }

  /** The number a string of digits denotes; 0 for the empty one. */
  function Val(s: string): nat
    requires Digits(s)
  {
    if s == [] then 0 else 10 * Val(s[..|s| - 1]) + DigitOf(s[|s| - 1])
  }

  /** The digits before the first character that is not one. */
  function Leading(s: string): (p: string)
    ensures |p| <= |s| && p == s[..|p|] && Digits(p)
    ensures |p| < |s| ==> !IsDigit(s[|p|])
  {
    if s == [] || !IsDigit(s[0]) then [] else [s[0]] + Leading(s[1..])
  }

  lemma {:induction false} ValPrefix(s: string, n: nat)
    requires Digits(s) && n <= |s|
    ensures Val(s[..n]) <= Val(s)
    decreases |s|
  {
    if n < |s| {
      ValPrefix(s[..|s| - 1], n);
      assert s[..|s| - 1][..n] == s[..n];
    } else {
      assert s[..n] == s;
    }
  }

  lemma OneDigit(p: string, i: nat)
    requires Digits(p) && i < |p|
    ensures Val(p[..i + 1]) == 10 * Val(p[..i]) + DigitOf(p[i])
    ensures Val(p[..i + 1]) <= Val(p)
  {
    assert p[..i + 1][..i] == p[..i];
    ValPrefix(p, i + 1);
  }

  /** `was` is what the destination held.  The accumulator is an int: the digits must not
      take it past INT_MAX. */
  method GetNumber(text: string, was: byte) returns (ok: bool, dst: byte)
    requires Val(Leading(text)) <= INT_MAX
    ensures ok <==> Digits(text) && Val(text) <= 255
    ensures ok ==> dst == Val(text)
    // a number that does not fit is stored truncated before it is refused
    ensures Digits(text) ==> dst == Val(text) % 256
    ensures !Digits(text) ==> dst == was
  {
    var isNumber, acc, i := true, 0, 0;
    ghost var p := Leading(text);
    while i < |text|
      invariant 0 <= i <= |text|
      invariant isNumber <==> i <= |p|
      invariant isNumber ==> acc == Val(p[..i])
      invariant 0 <= acc <= INT_MAX
    {
      if isNumber && IsDigit(text[i]) {
        OneDigit(p, i);
        acc := acc * 10;
        acc := acc + DigitOf(text[i]);
      } else {
        isNumber := false;
        assert i >= |p|;
      }
      i := i + 1;
    }
    assert Digits(text) <==> |p| == |text|;
    if !isNumber { return false, was; }
    assert p[..|text|] == text;
    dst := acc % 256;
    ok := dst == acc;
  }

  // ----- decimal printing ------------------------------------------------------------

  function Decimal(n: nat): (s: string)
    ensures Digits(s) && s != []
  {
    if n < 10 then [('0' as int + n) as char]
    else Decimal(n / 10) + [('0' as int + n % 10) as char]
  }

  lemma {:induction false} ValDecimal(n: nat)
    ensures Val(Decimal(n)) == n
  {
    var s := Decimal(n);
    if n < 10 {
      assert s[..|s| - 1] == [];
    } else {
      ValDecimal(n / 10);
      assert s[..|s| - 1] == Decimal(n / 10);
    }
  }

  lemma {:induction false} LeadingZero(s: string)
    requires Digits(s)
    ensures Digits("0" + s) && Val("0" + s) == Val(s)
  {
    var t := "0" + s;
    if s == [] {
      assert t[..0] == [];
    } else {
      LeadingZero(s[..|s| - 1]);
      assert t[..|t| - 1] == "0" + s[..|s| - 1];
    }
  }

  function ZeroDigits(k: nat): string { seq(k, _ => '0') }

  /** Reading back any decimal, with any number of leading zeros. */
  lemma {:induction false} ReadsBack(n: nat, k: nat)
    ensures Digits(ZeroDigits(k) + Decimal(n)) && Val(ZeroDigits(k) + Decimal(n)) == n
  {
    if k == 0 {
      assert ZeroDigits(0) + Decimal(n) == Decimal(n);
      ValDecimal(n);
    } else {
      ReadsBack(n, k - 1);
      LeadingZero(ZeroDigits(k - 1) + Decimal(n));
      assert ZeroDigits(k) + Decimal(n) == "0" + (ZeroDigits(k - 1) + Decimal(n));
    }
  }

  /** Printing a byte and parsing it is the identity; every other number is refused. */
  method PrintThenParse(n: nat, k: nat, was: byte) returns (ok: bool, dst: byte)
    requires n <= INT_MAX
    ensures ok <==> n <= 255
    ensures ok ==> dst == n
  {
    ReadsBack(n, k);
    var text := ZeroDigits(k) + Decimal(n);
    assert Leading(text) == text;
    ok, dst := GetNumber(text, was);
  }
}
