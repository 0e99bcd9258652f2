/**
 The parsers the broker trusts, on the bytes they really see: a source of any length that
 cannot be read past its end, and a destination buffer.
 */
module Parsers {
  import opened Base

  datatype Outcome = Accepted | Rejected | Faulted

  const FIELD := 16   // char address[16], char id[16]
  const SIZE := 24    // sizeof(logger::Config), sizeof(systemConfig::Config)

  // ----- text fields ---------------------------------------------------------------

  /** A C string in a fixed field: up to the first NUL, or all of it. */
  function Text(field: Bytes): (t: Bytes)
    ensures |t| <= |field| && t == field[..|t|] && 0 !in t
    ensures |t| < |field| ==> field[|t|] == 0
  {
    if field == [] || field[0] == 0 then [] else [field[0]] + Text(field[1..])
  }

  function Zeros(n: nat): (z: Bytes)
    ensures |z| == n && forall i :: 0 <= i < n ==> z[i] == 0
  {
    seq(n, _ => 0)
  }

  function Padded(t: Bytes): (f: Bytes)
    requires |t| <= FIELD
  {
    t + Zeros(FIELD - |t|)
  }

  predicate AllOf(t: Bytes, allowed: byte -> bool) { forall i :: 0 <= i < |t| ==> allowed(t[i]) }

  lemma TextIs(field: Bytes, n: nat)
    requires n <= |field| && (forall i :: 0 <= i < n ==> field[i] != 0) && (n < |field| ==> field[n] == 0)
    ensures Text(field) == field[..n]
  {
    assert |Text(field)| == n;
  }

  lemma TextPadded(t: Bytes)
    requires |t| <= FIELD && 0 !in t
    ensures Text(Padded(t)) == t
  {
    TextIs(Padded(t), |t|);
    assert Padded(t)[..|t|] == t;
  }

  /** The copying loop of both parsers: stops at a NUL (copied), at a character that is not
      allowed, or where the source ends. */
  method CopyText(src: Bytes, dst: array<byte>, allowed: byte -> bool) returns (r: Outcome, n: nat)
    requires dst.Length >= FIELD
    modifies dst
    ensures n <= FIELD && n <= |src| && AllOf(src[..n], allowed) && 0 !in src[..n]
    ensures n < FIELD && r == Faulted ==> n == |src|
    ensures n < FIELD && r == Accepted ==> n < |src| && src[n] == 0
    ensures r == Rejected ==> n < FIELD && n < |src| && src[n] != 0 && !allowed(src[n])
    ensures n == FIELD ==> r == Accepted
    ensures forall i :: 0 <= i < dst.Length ==>
      dst[i] == if i < n || (i == n < FIELD && r == Accepted) then src[i] else old(dst[i])
  {
    n := 0;
    while n < FIELD
      invariant n <= FIELD && n <= |src| && AllOf(src[..n], allowed) && 0 !in src[..n]
      invariant forall i :: 0 <= i < dst.Length ==> dst[i] == if i < n then src[i] else old(dst[i])
    {
      if n >= |src| { return Faulted, n; }
      var c := src[n];
      if c == 0 {
        dst[n] := c;
        return Accepted, n;
      }
      if !allowed(c) { return Rejected, n; }
      dst[n] := c;
      n := n + 1;
      assert src[..n] == src[..n - 1] + [c];
    }
    return Accepted, n;
  }

  // ----- logger ----------------------------------------------------------------------

  function IsAddr(c: byte): bool { c == 46 || 48 <= c <= 57 }

  /** host.address is digits and dots, host.port is not 0, level is Debug, Info, Warn or Error. */
  predicate LoggerAccepts(src: Bytes) {
    |src| >= SIZE && AllOf(Text(src[..FIELD]), IsAddr) &&
    (src[16] != 0 || src[17] != 0) &&
    src[20] <= 3 && src[21] == 0 && src[22] == 0 && src[23] == 0
  }

  function LoggerValue(src: Bytes): (v: Bytes)
    requires LoggerAccepts(src)
    ensures |v| == SIZE
  {
    Padded(Text(src[..FIELD])) + src[16..18] + [0, 0] + src[20..24]
  }

  /** parse_logger_config.  A source shorter than the structure faults on the first read. */
  method ParseLogger(src: Bytes, dst: array<byte>) returns (r: Outcome)
    requires dst.Length == SIZE
    modifies dst
    ensures r == if |src| < SIZE then Faulted else if LoggerAccepts(src) then Accepted else Rejected
    ensures r == Accepted && old(dst[..]) == Zeros(SIZE) ==> dst[..] == LoggerValue(src)
    ensures forall i :: 0 <= i < SIZE ==> dst[i] == old(dst[i]) || (i < |src| && dst[i] == src[i])
  {
    if |src| < SIZE { return Faulted; }
    var levelOk := CopyLevel(src, dst);
    var t, n := CopyText(src, dst, IsAddr);
    FieldText(src, n, t, IsAddr);
    var portOk := CopyPort(src, dst);
    r := if levelOk && t == Accepted && portOk then Accepted else Rejected;
    if r == Accepted && old(dst[..]) == Zeros(SIZE) {
      assert forall i :: 0 <= i < SIZE ==> old(dst[..])[i] == 0;
      LoggerFilled(src, n, dst[..]);
    }
  }

  method CopyLevel(src: Bytes, dst: array<byte>) returns (ok: bool)
    requires dst.Length == SIZE <= |src|
    modifies dst
    ensures ok <==> src[20] <= 3 && src[21] == 0 && src[22] == 0 && src[23] == 0
    ensures forall i :: 0 <= i < SIZE ==> dst[i] == if ok && i >= 20 then src[i] else old(dst[i])
  {
    ok := src[20] <= 3 && src[21] == 0 && src[22] == 0 && src[23] == 0;
    if ok { dst[20], dst[21], dst[22], dst[23] := src[20], src[21], src[22], src[23]; }
  }

  method CopyPort(src: Bytes, dst: array<byte>) returns (ok: bool)
    requires dst.Length == SIZE <= |src|
    modifies dst
    ensures ok <==> src[16] != 0 || src[17] != 0
    ensures forall i :: 0 <= i < SIZE ==> dst[i] == if ok && 16 <= i < 18 then src[i] else old(dst[i])
  {
    ok := src[16] != 0 || src[17] != 0;
    if ok { dst[16], dst[17] := src[16], src[17]; }
  }

  lemma LoggerFilled(src: Bytes, n: nat, d: Bytes)
    requires LoggerAccepts(src) && |d| == SIZE && n <= FIELD && Text(src[..FIELD]) == src[..n]
    requires forall i :: 0 <= i < n ==> d[i] == src[i]
    requires forall i :: n <= i < FIELD ==> d[i] == 0
    requires d[16] == src[16] && d[17] == src[17] && d[18] == 0 && d[19] == 0
    requires forall i :: 20 <= i < SIZE ==> d[i] == src[i]
    ensures d == LoggerValue(src)
  {
    assert forall i :: 0 <= i < FIELD ==> d[i] == Padded(Text(src[..FIELD]))[i];
  }

  /** Where the loop stopped, in terms of the field's text. */
  lemma FieldText(src: Bytes, n: nat, r: Outcome, allowed: byte -> bool)
    requires |src| >= FIELD && n <= FIELD && AllOf(src[..n], allowed) && 0 !in src[..n]
    requires n == FIELD ==> r == Accepted
    requires n < FIELD && r == Accepted ==> src[n] == 0
    requires r == Rejected ==> n < FIELD && src[n] != 0 && !allowed(src[n])
    requires n < FIELD ==> r != Faulted
    ensures r == Accepted <==> AllOf(Text(src[..FIELD]), allowed)
    ensures r == Accepted ==> Text(src[..FIELD]) == src[..n]
  {
    var field := src[..FIELD];
    if r == Accepted {
      TextIs(field, n);
      assert field[..n] == src[..n];
    } else {
      var t := Text(field);
      assert forall i :: 0 <= i < n ==> field[i] == src[..n][i];
      assert |t| > n && t[n] == src[n];
    }
  }

  // ----- system ------------------------------------------------------------------------

  function IsValidChar(c: byte): bool {
    97 <= c <= 122 || 65 <= c <= 90 || 48 <= c <= 57 || c == 45 || c == 95
  }

  /** id is letters, digits, '-' and '_'; the switches are taken as they come. */
  predicate SystemAccepts(src: Bytes) {
    |src| >= SIZE && AllOf(Text(src[..FIELD]), IsValidChar)
  }

  function SystemValue(src: Bytes): (v: Bytes)
    requires SystemAccepts(src)
    ensures |v| == SIZE
  {
    Padded(Text(src[..FIELD])) + src[16..24]
  }

  /** parse_system_config.  A short source faults part way, after some bytes were written. */
  method ParseSystem(src: Bytes, dst: array<byte>) returns (r: Outcome)
    requires dst.Length == SIZE
    modifies dst
    ensures r == if |src| < SIZE then Faulted else if SystemAccepts(src) then Accepted else Rejected
    ensures r == Accepted && old(dst[..]) == Zeros(SIZE) ==> dst[..] == SystemValue(src)
    ensures forall i :: 0 <= i < SIZE ==> dst[i] == old(dst[i]) || (i < |src| && dst[i] == src[i])
  {
    var t, n := CopyText(src, dst, IsValidChar);
    if t == Faulted { return Faulted; }
    ghost var mid := dst[..];
    var i := FIELD;
    while i < SIZE
      invariant FIELD <= i <= SIZE && (i > FIELD ==> i <= |src|)
      invariant forall j :: 0 <= j < SIZE ==> dst[j] == if FIELD <= j < i then src[j] else mid[j]
    {
      if i >= |src| { return Faulted; }
      dst[i] := src[i];
      i := i + 1;
    }
    FieldText(src, n, t, IsValidChar);
    r := t;
    if r == Accepted && old(dst[..]) == Zeros(SIZE) {
      assert forall i :: 0 <= i < SIZE ==> old(dst[..])[i] == 0;
      SystemFilled(src, n, dst[..]);
    }
  }

  lemma SystemFilled(src: Bytes, n: nat, d: Bytes)
    requires SystemAccepts(src) && |d| == SIZE && n <= FIELD && Text(src[..FIELD]) == src[..n]
    requires forall i :: 0 <= i < n ==> d[i] == src[i]
    requires forall i :: n <= i < FIELD ==> d[i] == 0
    requires forall i :: FIELD <= i < SIZE ==> d[i] == src[i]
    ensures d == SystemValue(src)
  {
    assert forall i :: 0 <= i < FIELD ==> d[i] == Padded(Text(src[..FIELD]))[i];
  }

  // ----- what acceptance means ------------------------------------------------------------

  /** A value the logger parser can publish is exactly one that it maps to itself. */
  lemma LoggerNormalises(v: Bytes)
    ensures (exists src :: LoggerAccepts(src) && LoggerValue(src) == v) <==>
      LoggerAccepts(v) && |v| == SIZE && LoggerValue(v) == v
  {
    if src :| LoggerAccepts(src) && LoggerValue(src) == v { LoggerIdempotent(src); }
  }

  lemma LoggerIdempotent(src: Bytes)
    requires LoggerAccepts(src)
    ensures LoggerAccepts(LoggerValue(src)) && LoggerValue(LoggerValue(src)) == LoggerValue(src)
  {
    var v, t := LoggerValue(src), Text(src[..FIELD]);
    assert v[..FIELD] == Padded(t);
    TextPadded(t);
    assert v[16..18] == src[16..18] && v[20..24] == src[20..24];
    assert v[16] == v[16..18][0] && v[17] == v[16..18][1];
    assert forall i :: 20 <= i < 24 ==> v[i] == v[20..24][i - 20] == src[i];
  }

  lemma SystemNormalises(v: Bytes)
    ensures (exists src :: SystemAccepts(src) && SystemValue(src) == v) <==>
      SystemAccepts(v) && |v| == SIZE && SystemValue(v) == v
  {
    if src :| SystemAccepts(src) && SystemValue(src) == v { SystemIdempotent(src); }
  }

  lemma SystemIdempotent(src: Bytes)
    requires SystemAccepts(src)
    ensures SystemAccepts(SystemValue(src)) && SystemValue(SystemValue(src)) == SystemValue(src)
  {
    var v, t := SystemValue(src), Text(src[..FIELD]);
    assert v[..FIELD] == Padded(t);
    TextPadded(t);
    assert v[16..24] == src[16..24];
  }

  /** Nothing after the first NUL of the text field, and nothing past the structure,
      reaches the published value. */
  lemma TailIgnored(a: Bytes, b: Bytes)
    requires |a| >= SIZE && |b| >= SIZE && Text(a[..FIELD]) == Text(b[..FIELD]) && a[FIELD..SIZE] == b[FIELD..SIZE]
    ensures SystemAccepts(a) <==> SystemAccepts(b)
    ensures SystemAccepts(a) ==> SystemValue(a) == SystemValue(b)
    ensures LoggerAccepts(a) <==> LoggerAccepts(b)
    ensures LoggerAccepts(a) ==> LoggerValue(a) == LoggerValue(b)
  {
    assert forall i :: FIELD <= i < SIZE ==> a[i] == a[FIELD..SIZE][i - FIELD] == b[i];
    assert a[16..18] == b[16..18] && a[20..24] == b[20..24] && a[16..24] == b[16..24];
  }
}
