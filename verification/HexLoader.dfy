/** The UART loader of js.cc: bytecode as hex bytes in braces. */
module HexLoader {
  import opened Base

  predicate IsHexDigit(c: char) { '0' <= c <= '9' || 'a' <= c <= 'f' || 'A' <= c <= 'F' }

  function HexValue(c: char): (n: nat)
    ensures n < 16
    ensures !IsHexDigit(c) ==> n == 0
  {
    if '0' <= c <= '9' then c as int - '0' as int
    else if 'a' <= c <= 'f' then c as int - 'a' as int + 10
    else if 'A' <= c <= 'F' then c as int - 'A' as int + 10
    else 0
  }

  /** What has become of the characters read so far: a script ending after `used` of them,
      a rejected one, or a loader that still waits for the UART. */
  datatype Load = Script(bytes: Bytes, used: nat) | Bad(used: nat) | Starved

  function After(k: nat, l: Load): Load {
    match l
    case Script(b, n) => Script(b, n + k)
    case Bad(n) => Bad(n + k)
    case Starved => Starved
  }

  predicate GoodByte(s: string)
    requires |s| >= 5
  {
    s[0] == '0' && s[1] == 'x' && IsHexDigit(s[2]) && IsHexDigit(s[3])
  }

  function ByteOf(s: string): byte
    requires |s| >= 5
  {
    HexValue(s[2]) * 16 + HexValue(s[3])
  }

  /** From just after the brace, five characters at a time; `acc` is what is in the vector. */
  function Body(acc: Bytes, s: string): Load
    decreases |s|
  {
    if |s| < 5 then Starved
    else if GoodByte(s) && s[4] == ',' then After(5, Body(acc + [ByteOf(s)], s[5..]))
    else if GoodByte(s) && s[4] == '}' then Script(acc + [ByteOf(s)], 5)
    else Bad(5)
  }

  /** Characters up to and including the first opening brace. */
  function Skip(s: string): (k: Option<nat>)
    ensures k.Some? ==> 0 < k.value <= |s| && s[k.value - 1] == '{' && '{' !in s[..k.value - 1]
    ensures k.None? ==> '{' !in s
  {
    if s == [] then None
    else if s[0] == '{' then Some(1)
    else var k := Skip(s[1..]); if k.None? then None else Some(k.value + 1)
  }

  function LoadOf(s: string): Load {
    var k := Skip(s);
    if k.None? then Starved else After(k.value, Body([], s[k.value..]))
  }

  /** skipUntil('{'). */
  method SkipUntilBrace(input: string) returns (i: nat)
    ensures i <= |input|
    ensures if Skip(input) == None then i == |input| else Skip(input) == Some(i)
  {
    i := 0;
    while i < |input| && input[i] != '{'
      invariant 0 <= i <= |input| && '{' !in input[..i]
    {
      i := i + 1;
    }
    if i == |input| {
      assert input[..i] == input;
    } else {
      SkipIs(input, i);
      i := i + 1;
    }
  }

  /** The loop with interrupts disabled: fill the buffer, check it, push a byte. */
  method ReadBytes(input: string) returns (r: Load)
    ensures r == Body([], input)
  {
    var i := 0;
    var bytecode: Bytes := [];
    assert input[0..] == input;
    while i + 5 <= |input|
      invariant 0 <= i <= |input|
      invariant Body([], input) == After(i, Body(bytecode, input[i..]))
    {
      ghost var s := input[i..];
      assert s[5..] == input[i + 5..];
      var buffer := input[i..i + 5];
      assert forall j :: 0 <= j < 5 ==> buffer[j] == s[j];
      i := i + 5;
      if buffer[0] == '0' && buffer[1] == 'x' && IsHexDigit(buffer[2]) && IsHexDigit(buffer[3]) {
        bytecode := bytecode + [HexValue(buffer[2]) * 16 + HexValue(buffer[3])];
        if buffer[4] == ',' {
          AfterAfter(i - 5, 5, Body(bytecode, s[5..]));
          continue;
        }
        if buffer[4] == '}' { return Script(bytecode, i); }
      }
      return Bad(i);
    }
    return Starved;
  }

  /** One turn of the loader. */
  method LoadScript(input: string) returns (r: Load)
    ensures r == LoadOf(input)
  {
    var k := SkipUntilBrace(input);
    if k == 0 || input[k - 1] != '{' { return Starved; }
    r := ReadBytes(input[k..]);
    r := After(k, r);
  }

  lemma AfterAfter(j: nat, k: nat, l: Load)
    ensures After(j, After(k, l)) == After(j + k, l)
  {}

  lemma {:induction false} SkipIs(s: string, k: nat)
    requires k < |s| && s[k] == '{' && '{' !in s[..k]
    ensures Skip(s) == Some(k + 1)
  {
    if k > 0 {
      assert s[0] in s[..k];
      assert s[1..][..k - 1] == s[..k][1..];
      SkipIs(s[1..], k - 1);
    }
  }

  // ----- the notation --------------------------------------------------------------

  /** `text` is `0xHH,0xHH,...,0xHH}` for `bytes`, in any digit case. */
  predicate Encodes(text: string, bytes: Bytes) {
    |bytes| > 0 && |text| == 5 * |bytes| &&
    GoodByte(text) && ByteOf(text) == bytes[0] &&
    if |bytes| == 1 then text[4] == '}' else text[4] == ',' && Encodes(text[5..], bytes[1..])
  }

  const LOWER: string := "0123456789abcdef"
  const UPPER: string := "0123456789ABCDEF"

  /** The sixteen digits in either case, and no other characters. */
  lemma HexTables(n: nat)
    requires n < 16
    ensures IsHexDigit(LOWER[n]) && HexValue(LOWER[n]) == n
    ensures IsHexDigit(UPPER[n]) && HexValue(UPPER[n]) == n
  {
    var d := n;
    assert n == 0 || n == 1 || n == 2 || n == 3 || n == 4 || n == 5 || n == 6 || n == 7 ||
           n == 8 || n == 9 || n == 10 || n == 11 || n == 12 || n == 13 || n == 14 || n == 15;
  }

  lemma HexDigitsExactly(c: char)
    ensures IsHexDigit(c) <==> c in LOWER || c in UPPER
    ensures IsHexDigit(c) ==> c == LOWER[HexValue(c)] || c == UPPER[HexValue(c)]
  {
    if c in LOWER {
      var n :| 0 <= n < |LOWER| && LOWER[n] == c;
      HexTables(n);
    }
    if c in UPPER {
      var n :| 0 <= n < |UPPER| && UPPER[n] == c;
      HexTables(n);
    }
  }

  /** One byte as microvium's hex output has it; each digit may be in either case. */
  function Group(b: byte, high: bool, low: bool, end: char): (s: string)
    ensures |s| == 5
  {
    ['0', 'x', if high then UPPER[b / 16] else LOWER[b / 16], if low then UPPER[b % 16] else LOWER[b % 16], end]
  }

  lemma GroupReads(b: byte, high: bool, low: bool, end: char)
    ensures var s := Group(b, high, low, end); GoodByte(s) && ByteOf(s) == b && s[4] == end
  {
    HexTables(b / 16);
    HexTables(b % 16);
  }

  lemma GroupOnly(s: string) returns (high: bool, low: bool)
    requires |s| == 5 && GoodByte(s)
    ensures s == Group(ByteOf(s), high, low, s[4])
  {
    HexDigitsExactly(s[2]);
    HexDigitsExactly(s[3]);
    high, low := s[2] == UPPER[HexValue(s[2])], s[3] == UPPER[HexValue(s[3])];
    assert ByteOf(s) / 16 == HexValue(s[2]) && ByteOf(s) % 16 == HexValue(s[3]);
  }

  /** A whole script, with a choice of case for every digit. */
  function Write(bytes: Bytes, upper: seq<(bool, bool)>): string
    requires |bytes| > 0 && |upper| == |bytes|
  {
    if |bytes| == 1 then Group(bytes[0], upper[0].0, upper[0].1, '}')
    else Group(bytes[0], upper[0].0, upper[0].1, ',') + Write(bytes[1..], upper[1..])
  }

  lemma {:induction false} WriteEncodes(bytes: Bytes, upper: seq<(bool, bool)>)
    requires |bytes| > 0 && |upper| == |bytes|
    ensures Encodes(Write(bytes, upper), bytes)
  {
    var end := if |bytes| == 1 then '}' else ',';
    GroupReads(bytes[0], upper[0].0, upper[0].1, end);
    if |bytes| > 1 {
      WriteEncodes(bytes[1..], upper[1..]);
      assert Write(bytes, upper)[5..] == Write(bytes[1..], upper[1..]);
    }
  }

  lemma {:induction false} OnlyWritten(text: string, bytes: Bytes) returns (upper: seq<(bool, bool)>)
    requires Encodes(text, bytes)
    ensures |upper| == |bytes| && text == Write(bytes, upper)
    decreases |bytes|
  {
    var high, low := FirstGroup(text, bytes);
    if |bytes| == 1 {
      upper := [(high, low)];
      assert text[..5] == text;
    } else {
      var rest := OnlyWritten(text[5..], bytes[1..]);
      upper := [(high, low)] + rest;
      Prepended(bytes, high, low, rest);
      assert text == text[..5] + text[5..];
    }
  }

  lemma FirstGroup(text: string, bytes: Bytes) returns (high: bool, low: bool)
    requires Encodes(text, bytes)
    ensures text[..5] == Group(bytes[0], high, low, if |bytes| == 1 then '}' else ',')
  {
    var s := text[..5];
    assert GoodByte(s) && ByteOf(s) == bytes[0] && s[4] == text[4];
    high, low := GroupOnly(s);
  }

  lemma Prepended(bytes: Bytes, high: bool, low: bool, rest: seq<(bool, bool)>)
    requires |bytes| > 1 && |rest| == |bytes| - 1
    ensures Write(bytes, [(high, low)] + rest) == Group(bytes[0], high, low, ',') + Write(bytes[1..], rest)
  {
    assert ([(high, low)] + rest)[1..] == rest;
  }

  /** The encodings of some bytes are exactly what can be written for them. */
  lemma EncodesExactly(text: string, bytes: Bytes)
    requires |bytes| > 0
    ensures Encodes(text, bytes) <==> exists upper :: |upper| == |bytes| && text == Write(bytes, upper)
  {
    if Encodes(text, bytes) { var upper := OnlyWritten(text, bytes); }
    if upper :| |upper| == |bytes| && text == Write(bytes, upper) { WriteEncodes(bytes, upper); }
  }

  lemma {:induction false} BodyReads(acc: Bytes, text: string, bytes: Bytes, rest: string)
    requires Encodes(text, bytes)
    ensures Body(acc, text + rest) == Script(acc + bytes, |text|)
    decreases |bytes|
  {
    var s := text + rest;
    assert GoodByte(s) && ByteOf(s) == bytes[0] && s[4] == text[4];
    if |bytes| == 1 {
      assert acc + [bytes[0]] == acc + bytes;
    } else {
      assert s[5..] == text[5..] + rest;
      BodyReads(acc + [bytes[0]], text[5..], bytes[1..], rest);
      assert acc + [bytes[0]] + bytes[1..] == acc + bytes;
    }
  }

  lemma {:induction false} BodyOnlyReads(acc: Bytes, s: string)
    requires Body(acc, s).Script?
    ensures var r := Body(acc, s);
      r.used <= |s| && |acc| < |r.bytes| && r.bytes[..|acc|] == acc && Encodes(s[..r.used], r.bytes[|acc|..])
    decreases |s|
  {
    var r := Body(acc, s);
    if s[4] == ',' {
      BodyOnlyReads(acc + [ByteOf(s)], s[5..]);
      var q := Body(acc + [ByteOf(s)], s[5..]);
      assert r == Script(q.bytes, q.used + 5);
      assert r.bytes[..|acc|] == r.bytes[..|acc| + 1][..|acc|];
      assert r.bytes[|acc|] == r.bytes[..|acc| + 1][|acc|];
      assert r.bytes[|acc|..][1..] == q.bytes[|acc| + 1..];
      assert s[..r.used][5..] == s[5..][..q.used];
    } else {
      assert s[..5][..5] == s[..5];
    }
  }

  /** The loader reads every encoding, after any text without an opening brace. */
  lemma {:induction false} LoadReads(s: string, k: nat, bytes: Bytes, n: nat)
    requires k < n <= |s| && '{' !in s[..k] && s[k] == '{' && Encodes(s[k + 1..n], bytes)
    ensures LoadOf(s) == Script(bytes, n)
  {
    SkipIs(s, k);
    Cut(s, k + 1, n);
    BodyReads([], s[k + 1..n], bytes, s[n..]);
    assert [] + bytes == bytes;
  }

  /** And nothing else. */
  lemma {:induction false} LoadOnlyReads(s: string, bytes: Bytes, n: nat) returns (k: nat)
    requires LoadOf(s) == Script(bytes, n)
    ensures k < n <= |s| && '{' !in s[..k] && s[k] == '{' && Encodes(s[k + 1..n], bytes)
  {
    k := Skip(s).value - 1;
    BodyOnlyReads([], s[k + 1..]);
    Cut(s, k + 1, n);
    assert Body([], s[k + 1..]).bytes[0..] == bytes;
  }

  /** Exactly the encodings are accepted: the loader returns `bytes` after `n` characters
      if and only if what precedes position n is text without an opening brace, a brace,
      and an encoding of `bytes`. */
  lemma {:induction false} LoadsExactly(s: string, bytes: Bytes, n: nat)
    ensures LoadOf(s) == Script(bytes, n) <==>
      exists k: nat :: k < n <= |s| && '{' !in s[..k] && s[k] == '{' && Encodes(s[k + 1..n], bytes)
  {
    if LoadOf(s) == Script(bytes, n) { var k := LoadOnlyReads(s, bytes, n); }
    if k: nat :| k < n <= |s| && '{' !in s[..k] && s[k] == '{' && Encodes(s[k + 1..n], bytes) {
      LoadReads(s, k, bytes, n);
    }
  }

  lemma Cut(s: string, a: nat, b: nat)
    requires a <= b <= |s|
    ensures s[a..] == s[a..b] + s[b..] && s[a..][..b - a] == s[a..b]
  {}

  // ----- the endless loop ------------------------------------------------------------

  /** What `run` does to the JavaScript compartment. */
  datatype Event = Kill | Start(bytes: Bytes)

  function Session(s: string): seq<Event>
    decreases |s|
  {
    var r := LoadOf(s);
    LoadUses(s);
    if r.Starved? then [] else Served(r) + Session(s[r.used..])
  }

  /** A rejected script stops the one that was running all the same. */
  function Served(r: Load): seq<Event> {
    match r
    case Script(b, _) => [Kill, Start(b)]
    case Bad(_) => [Kill]
    case Starved => []
  }

  lemma LoadUses(s: string)
    ensures var r := LoadOf(s); !r.Starved? ==> 0 < r.used <= |s|
  {
    var k := Skip(s);
    if k.Some? { BodyUses([], s[k.value..]); }
  }

  lemma {:induction false} BodyUses(acc: Bytes, s: string)
    ensures var r := Body(acc, s); !r.Starved? ==> 5 <= r.used <= |s|
    decreases |s|
  {
    if |s| >= 5 && GoodByte(s) && s[4] == ',' { BodyUses(acc + [ByteOf(s)], s[5..]); }
  }

  /** The loop of `run`, over all the characters that ever arrive. */
  method Serve(input: string) returns (events: seq<Event>)
    ensures events == Session(input)
  {
    events := [];
    var rest := input;
    while true
      invariant Session(input) == events + Session(rest)
      decreases |rest|
    {
      var r := LoadScript(rest);
      OneTurn(rest, events, r);
      if r == Starved { return; }
      events := events + Served(r);
      rest := rest[r.used..];
    }
  }

  lemma {:induction false} OneTurn(s: string, before: seq<Event>, r: Load)
    requires r == LoadOf(s)
    ensures r.Starved? ==> before + Session(s) == before
    ensures !r.Starved? ==>
      0 < r.used <= |s| && before + Session(s) == (before + Served(r)) + Session(s[r.used..])
  {
    LoadUses(s);
  }

  /** Some bytes followed by commas: the start of a script. */
  function Opening(bytes: Bytes, upper: seq<(bool, bool)>): (s: string)
    requires |upper| == |bytes|
    ensures |s| == 5 * |bytes|
  {
    if bytes == [] then [] else Group(bytes[0], upper[0].0, upper[0].1, ',') + Opening(bytes[1..], upper[1..])
  }

  /** Five characters that are no byte of a script. */
  predicate Broken(bad: string) {
    |bad| == 5 &&
    !(bad[0] == '0' && bad[1] == 'x' && (bad[2] in LOWER || bad[2] in UPPER) && (bad[3] in LOWER || bad[3] in UPPER) &&
      (bad[4] == ',' || bad[4] == '}'))
  }

  lemma BrokenIsNoByte(bad: string)
    requires Broken(bad)
    ensures !(GoodByte(bad) && (bad[4] == ',' || bad[4] == '}'))
  {
    HexDigitsExactly(bad[2]);
    HexDigitsExactly(bad[3]);
  }

  /** One group read. */
  lemma BodyGroup(acc: Bytes, g: string, rest: string)
    requires |g| == 5
    ensures GoodByte(g) && g[4] == ',' ==> Body(acc, g + rest) == After(5, Body(acc + [ByteOf(g)], rest))
    ensures !(GoodByte(g) && (g[4] == ',' || g[4] == '}')) ==> Body(acc, g + rest) == Bad(5)
  {
    var s := g + rest;
    assert s[5..] == rest && s[0] == g[0] && s[1] == g[1] && s[2] == g[2] && s[3] == g[3] && s[4] == g[4];
  }

  lemma {:induction false} BodyRejects(acc: Bytes, bytes: Bytes, upper: seq<(bool, bool)>, bad: string, rest: string)
    requires |upper| == |bytes| && Broken(bad)
    ensures Body(acc, Opening(bytes, upper) + bad + rest) == Bad(5 * |bytes| + 5)
    decreases |bytes|
  {
    if bytes == [] {
      assert Opening(bytes, upper) + bad + rest == bad + rest;
      BrokenIsNoByte(bad);
      BodyGroup(acc, bad, rest);
    } else {
      var g := Group(bytes[0], upper[0].0, upper[0].1, ',');
      var more := Opening(bytes[1..], upper[1..]) + bad + rest;
      GroupReads(bytes[0], upper[0].0, upper[0].1, ',');
      assert Opening(bytes, upper) + bad + rest == g + more;
      BodyGroup(acc, g, more);
      BodyRejects(acc + [bytes[0]], bytes[1..], upper[1..], bad, rest);
    }
  }

  /** A transmission: noise without an opening brace, then a script, or one that breaks off
      with five characters that are no byte. */
  datatype Sent =
    | Whole(noise: string, bytes: Bytes, upper: seq<(bool, bool)>)
    | Part(noise: string, bytes: Bytes, upper: seq<(bool, bool)>, bad: string)
  {
    predicate Ok() {
      '{' !in noise && |upper| == |bytes| && if Whole? then |bytes| > 0 else Broken(bad)
    }

    function Chars(): string
      requires Ok()
    {
      noise + ['{'] + if Whole? then Write(bytes, upper) else Opening(bytes, upper) + bad
    }
  }

  predicate AllOk(ts: seq<Sent>) { forall i :: 0 <= i < |ts| ==> ts[i].Ok() }

  function Stream(ts: seq<Sent>): string
    requires AllOk(ts)
  {
    if ts == [] then [] else ts[0].Chars() + Stream(ts[1..])
  }

  /** The JavaScript that was running is stopped in either case. */
  function Events(ts: seq<Sent>): seq<Event> {
    if ts == [] then []
    else (if ts[0].Whole? then [Kill, Start(ts[0].bytes)] else [Kill]) + Events(ts[1..])
  }

  lemma SentLoads(x: Sent, rest: string)
    requires x.Ok()
    ensures LoadOf(x.Chars() + rest) == if x.Whole? then Script(x.bytes, |x.Chars()|) else Bad(|x.Chars()|)
  {
    var s, k, n := x.Chars() + rest, |x.noise|, |x.Chars()|;
    assert s[..k] == x.noise && s[k] == '{';
    if x.Whole? {
      WriteEncodes(x.bytes, x.upper);
      assert s[k + 1..n] == Write(x.bytes, x.upper);
      LoadReads(s, k, x.bytes, n);
    } else {
      SkipIs(s, k);
      assert s[k + 1..] == Opening(x.bytes, x.upper) + x.bad + rest;
      BodyRejects([], x.bytes, x.upper, x.bad, rest);
    }
  }

  /** Every script sent, in any digit case, in any number and with any noise between them, is
      started with exactly its bytes, in order, after the previous one was stopped; a broken
      one stops the previous one too, and reading goes on right behind what was no byte. */
  lemma {:induction false} SessionRunsAll(ts: seq<Sent>)
    requires AllOk(ts)
    ensures Session(Stream(ts)) == Events(ts)
  {
    if ts != [] {
      var s, rest := Stream(ts), Stream(ts[1..]);
      SentLoads(ts[0], rest);
      assert s[|ts[0].Chars()|..] == rest;
      SessionRunsAll(ts[1..]);
    }
  }
}
