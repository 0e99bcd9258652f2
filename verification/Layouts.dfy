/** The parsers in terms of what is in the structures: text, numbers and switches. */
module Layouts {
  import opened Base
  import opened Parsers
  import Numbers

  const LETTERS: string := "abcdefghijklmnopqrstuvwxyz"
  const CAPITALS: string := "ABCDEFGHIJKLMNOPQRSTUVWXYZ"
  const DIGITS: string := "0123456789"

  // ----- character classes -----------------------------------------------------------

  lemma DigitAt(n: nat)
    requires n < 10
    ensures DIGITS[n] as int == 48 + n
  {
    assert n == 0 || n == 1 || n == 2 || n == 3 || n == 4 || n == 5 || n == 6 || n == 7 || n == 8 || n == 9;
  }

  lemma LetterAt(n: nat)
    requires n < 26
    ensures LETTERS[n] as int == 97 + n && CAPITALS[n] as int == 65 + n
  {
    assert n == 0 || n == 1 || n == 2 || n == 3 || n == 4 || n == 5 || n == 6 || n == 7 || n == 8 || n == 9 ||
           n == 10 || n == 11 || n == 12 || n == 13 || n == 14 || n == 15 || n == 16 || n == 17 || n == 18 ||
           n == 19 || n == 20 || n == 21 || n == 22 || n == 23 || n == 24 || n == 25;
  }

  lemma InDigits(c: char)
    ensures c in DIGITS <==> 48 <= c as int <= 57
  {
    if c in DIGITS {
      var n :| 0 <= n < |DIGITS| && DIGITS[n] == c;
      DigitAt(n);
    }
    if 48 <= c as int <= 57 { DigitAt(c as int - 48); }
  }

  lemma InLetters(c: char)
    ensures c in LETTERS <==> 97 <= c as int <= 122
    ensures c in CAPITALS <==> 65 <= c as int <= 90
  {
    if c in LETTERS {
      var n :| 0 <= n < |LETTERS| && LETTERS[n] == c;
      LetterAt(n);
    }
    if c in CAPITALS {
      var n :| 0 <= n < |CAPITALS| && CAPITALS[n] == c;
      LetterAt(n);
    }
    if 97 <= c as int <= 122 { LetterAt(c as int - 97); }
    if 65 <= c as int <= 90 { LetterAt(c as int - 65); }
  }

  /** The characters of an address, and of an id. */
  predicate AddressText(s: string) { forall i :: 0 <= i < |s| ==> s[i] in DIGITS || s[i] == '.' }

  predicate IdText(s: string) {
    forall i :: 0 <= i < |s| ==> s[i] in LETTERS || s[i] in CAPITALS || s[i] in DIGITS || s[i] == '-' || s[i] == '_'
  }

  lemma AddrExactly(c: byte)
    ensures IsAddr(c) <==> c as char in DIGITS || c as char == '.'
  {
    InDigits(c as char);
  }

  lemma ValidExactly(c: byte)
    ensures IsValidChar(c) <==>
      c as char in LETTERS || c as char in CAPITALS || c as char in DIGITS || c as char == '-' || c as char == '_'
  {
    InDigits(c as char);
    InLetters(c as char);
  }

  // ----- text in a field ---------------------------------------------------------------

  /** The first 16 bytes hold this text: all of them, or up to a NUL. */
  predicate HoldsText(b: Bytes, s: string) {
    |b| >= FIELD && |s| <= FIELD &&
    (forall i :: 0 <= i < |s| ==> b[i] != 0 && b[i] as char == s[i]) && (|s| < FIELD ==> b[|s|] == 0)
  }

  lemma FieldIs(b: Bytes, s: string)
    requires HoldsText(b, s)
    ensures Text(b[..FIELD]) == b[..|s|]
  {
    var field := b[..FIELD];
    TextIs(field, |s|);
    assert field[..|s|] == b[..|s|];
  }

  /** And nothing behind the text. */
  predicate Clean(b: Bytes, s: string) { |b| == SIZE && forall i :: |s| <= i < FIELD ==> b[i] == 0 }

  // ----- logger ------------------------------------------------------------------------

  /** Two bytes, the low one first. */
  function Little(low: int, high: int): int { low + 0x100 * high }

  /** host.address, host.port and level of a structure, in the byte order of the machine. */
  predicate IsLogger(b: Bytes, address: string, port: nat, level: nat) {
    |b| >= SIZE && HoldsText(b, address) && port == Little(b[16], b[17]) &&
    level == Little(b[20], b[21]) + 0x1_0000 * Little(b[22], b[23])
  }

  /** Accepted are exactly an address of digits and dots, a port other than 0, and one of the
      four levels; and what is published is that address, port and level, and no other data. */
  lemma LoggerExactly(src: Bytes, address: string, port: nat, level: nat)
    requires IsLogger(src, address, port, level)
    ensures LoggerAccepts(src) <==> AddressText(address) && port > 0 && level <= 3
    ensures LoggerAccepts(src) ==>
      IsLogger(LoggerValue(src), address, port, level) && Clean(LoggerValue(src), address) &&
      LoggerValue(src)[18] == 0 == LoggerValue(src)[19]
  {
    FieldIs(src, address);
    var t := Text(src[..FIELD]);
    forall i | 0 <= i < |t| ensures IsAddr(t[i]) <==> address[i] in DIGITS || address[i] == '.' {
      AddrExactly(t[i]);
    }
    if LoggerAccepts(src) {
      var v := LoggerValue(src);
      assert v[..FIELD] == Padded(t);
      forall i | 0 <= i < FIELD ensures v[i] == if i < |t| then t[i] else 0 { assert v[i] == v[..FIELD][i]; }
      assert v[16] == src[16..18][0] && v[17] == src[16..18][1];
      assert forall i :: 20 <= i < 24 ==> v[i] == src[20..24][i - 20];
    }
  }

  function Dotted(a: nat, b: nat, c: nat, d: nat): string {
    Numbers.Decimal(a) + "." + Numbers.Decimal(b) + "." + Numbers.Decimal(c) + "." + Numbers.Decimal(d)
  }

  lemma DecimalAddress(n: nat)
    ensures AddressText(Numbers.Decimal(n))
  {
    var s := Numbers.Decimal(n);
    forall i | 0 <= i < |s| ensures s[i] in DIGITS { InDigits(s[i]); }
  }

  /** Every dotted address that fits the field is accepted, with exactly that address. */
  lemma DottedAccepted(src: Bytes, a: nat, b: nat, c: nat, d: nat, port: nat, level: nat)
    requires IsLogger(src, Dotted(a, b, c, d), port, level) && port > 0 && level <= 3
    ensures LoggerAccepts(src) && IsLogger(LoggerValue(src), Dotted(a, b, c, d), port, level)
  {
    DecimalAddress(a);
    DecimalAddress(b);
    DecimalAddress(c);
    DecimalAddress(d);
    LoggerExactly(src, Dotted(a, b, c, d), port, level);
  }

  // ----- system ------------------------------------------------------------------------

  predicate IsSystem(b: Bytes, id: string, switches: Bytes) {
    |b| >= SIZE && HoldsText(b, id) && |switches| == SIZE - FIELD && b[FIELD..SIZE] == switches
  }

  /** Accepted is exactly an id of letters, digits, '-' and '_', whatever the switches; and
      what is published is that id and those switches. */
  lemma SystemExactly(src: Bytes, id: string, switches: Bytes)
    requires IsSystem(src, id, switches)
    ensures SystemAccepts(src) <==> IdText(id)
    ensures SystemAccepts(src) ==> IsSystem(SystemValue(src), id, switches) && Clean(SystemValue(src), id)
  {
    FieldIs(src, id);
    var t := Text(src[..FIELD]);
    forall i | 0 <= i < |t|
      ensures IsValidChar(t[i]) <==>
        id[i] in LETTERS || id[i] in CAPITALS || id[i] in DIGITS || id[i] == '-' || id[i] == '_'
    {
      ValidExactly(t[i]);
    }
    if SystemAccepts(src) {
      var v := SystemValue(src);
      assert v[..FIELD] == Padded(t);
      forall i | 0 <= i < FIELD ensures v[i] == if i < |t| then t[i] else 0 { assert v[i] == v[..FIELD][i]; }
      assert v[FIELD..SIZE] == src[16..24];
    }
  }

  /** Every structure is one of these, in one way. */
  lemma EveryStructure(b: Bytes) returns (s: string)
    requires |b| >= SIZE
    ensures HoldsText(b, s) && forall x :: HoldsText(b, x) ==> x == s
  {
    var t := Text(b[..FIELD]);
    s := seq(|t|, i requires 0 <= i < |t| => t[i] as char);
    assert forall i :: 0 <= i < |t| ==> t[i] == b[i];
    if |t| < FIELD { assert b[..FIELD][|t|] == 0; }
    forall x | HoldsText(b, x) ensures x == s { FieldIs(b, x); }
  }
}
