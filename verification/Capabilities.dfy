/**
 The register machine that microvium-ffi.hh exposes to JavaScript: eight virtual registers
 kept on the stack, three machine registers, and capability-addressed memory.
 */
module Capabilities {
  import opened Base

  datatype Perm = Load | Store | LoadStoreCap | LoadMutable | LoadGlobal | StoreLocal | Global | Execute

  /** A capability, or with `tag` false any other 8 bytes of data. */
  datatype Cap = Cap(tag: bool, base: int, top: int, addr: int, perms: set<Perm>, sealed: bool)

  const NULL := Cap(false, 0, 0, 0, {}, false)

  type Memory = map<int, Cap>   // by 8-byte granule

  function At(m: Memory, g: int): Cap { if g in m then m[g] else NULL }

  /** Same or less authority; the address is not part of it. */
  predicate Within(c: Cap, a: Cap) {
    c.tag && a.tag && a.base <= c.base && c.top <= a.top && c.perms <= a.perms && c.sealed == a.sealed
  }

  predicate Weaker(c: Cap, a: Cap) { !c.tag || Within(c, a) }

  /** What the architecture may do on the way: loads and stores may drop permissions or the
      tag, moving the address may drop the tag, and data is read out of a granule's bits. */
  datatype Isa = Isa(loadAs: (Cap, Cap) -> Cap, storeAs: (Cap, Cap) -> Cap, moveTo: (Cap, int) -> Cap,
                     word: (Cap, bool) -> int, raw: set<Perm> -> int) {
    ghost predicate Ok() {
      (forall via, v :: Weaker(loadAs(via, v), v) && (loadAs(via, v).tag ==> LoadStoreCap in via.perms)) &&
      (forall via, v :: Weaker(storeAs(via, v), v)) &&
      (forall c, a :: Weaker(moveTo(c, a), c) && moveTo(c, a).addr == a)
    }
  }

  predicate Covers(c: Cap, a: int, len: nat, p: Perm)
    requires len > 0
  {
    c.tag && !c.sealed && p in c.perms && a % len == 0 && c.base <= a && a + len <= c.top
  }

  /** A dereference: none is a CHERI fault. */
  function LoadCap(isa: Isa, m: Memory, c: Cap): Option<Cap> {
    if Covers(c, c.addr, 8, Load) then Some(isa.loadAs(c, At(m, c.addr))) else None
  }

  function StoreCap(isa: Isa, m: Memory, c: Cap, v: Cap): Option<Memory> {
    if Covers(c, c.addr, 8, Store) then Some(m[c.addr := isa.storeAs(c, v)]) else None
  }

  function LoadWord(isa: Isa, m: Memory, c: Cap): Option<int> {
    if Covers(c, c.addr, 4, Load) then Some(isa.word(At(m, c.addr - c.addr % 8), c.addr % 8 == 4)) else None
  }

  /** csp, cgp and pcc: fixed authority, whatever their addresses; and the granule in which
      another compartment keeps the secret. */
  datatype Roots = Roots(csp: Cap, cgp: Cap, pcc: Cap, secret: int)

  /** The exported functions.  `at` is where csp, cgp or pcc happens to point when read;
      `answer` is what a button or switch says, none for print and the LEDs; `cycles` is the
      data with which check_secret overwrites the secret. */
  datatype Op =
    | Move(destination: int, source: int, at: int)
    | LoadTo(destination: int, source: int, offset: int, at: int)
    | LoadInt(source: int, offset: int, at: int)
    | StoreFrom(value: int, source: int, offset: int, at: int)
    | Get(field: Field, regno: int, at: int)
    | SetAddress(regno: int, address: int, at: int)
    | Device(answer: Option<int>)
    | CheckSecret(guess: int, cycles: Cap)

  datatype Field = Address | Base | Length | Permissions

  datatype Effect = Fault | Next(mem: Memory, out: Option<int>)

  /** Offset arithmetic is that of a 32-bit address. */
  function Shifted(isa: Isa, c: Cap, offset: int): Cap { isa.moveTo(c, (c.addr + offset) % U32) }

  /** state(): the register file is found through a pointer near the top of the stack. */
  function FilePointer(isa: Isa, r: Roots, m: Memory): Option<Cap> {
    LoadCap(isa, m, isa.moveTo(r.csp, r.csp.top - 16))
  }

  function RegisterRead(isa: Isa, r: Roots, m: Memory, n: int, at: int): Option<Cap> {
    if 0 <= n < 8 then
      var file := FilePointer(isa, r, m);
      if file.None? then None else LoadCap(isa, m, Shifted(isa, file.value, 8 * n))
    else if n == 8 then Some(r.csp.(addr := at))
    else if n == 9 then Some(r.cgp.(addr := at))
    else if n == 10 then Some(r.pcc.(addr := at))
    else Some(NULL)
  }

  function RegisterWrite(isa: Isa, r: Roots, m: Memory, n: int, v: Cap): Option<Memory> {
    if 0 <= n < 8 then
      var file := FilePointer(isa, r, m);
      if file.None? then None else StoreCap(isa, m, Shifted(isa, file.value, 8 * n), v)
    else Some(m)
  }

  function Written(o: Option<Memory>): Effect { if o.None? then Fault else Next(o.value, None) }

  /** Two's complement reading of a 32-bit result. */
  function Int32(a: int): int { if a % U32 < 0x8000_0000 then a % U32 else a % U32 - U32 }

  function Inspect(isa: Isa, c: Cap, field: Field): int {
    match field
    case Address => c.addr
    case Base => c.base
    case Length => c.top - c.base
    case Permissions => isa.raw(c.perms)
  }

  function Exec(isa: Isa, r: Roots, m: Memory, op: Op): Effect {
    match op
    case Move(d, s, at) =>
      var v := RegisterRead(isa, r, m, s, at);
      if v.None? then Fault else Written(RegisterWrite(isa, r, m, d, v.value))
    case LoadTo(d, s, off, at) =>
      var c := RegisterRead(isa, r, m, s, at);
      if c.None? then Fault
      else
        var v := LoadCap(isa, m, Shifted(isa, c.value, off));
        if v.None? then Fault else Written(RegisterWrite(isa, r, m, d, v.value))
    case LoadInt(s, off, at) =>
      var c := RegisterRead(isa, r, m, s, at);
      if c.None? then Fault
      else
        var x := LoadWord(isa, m, Shifted(isa, c.value, off));
        if x.None? then Fault else Next(m, Some(x.value))
    case StoreFrom(x, s, off, at) =>
      var c := RegisterRead(isa, r, m, s, at);
      var v := RegisterRead(isa, r, m, x, at);
      if c.None? || v.None? then Fault
      else Written(StoreCap(isa, m, Shifted(isa, c.value, off), v.value))
    case Get(field, n, at) =>
      var c := RegisterRead(isa, r, m, n, at);
      if c.None? then Fault else Next(m, Some(Int32(Inspect(isa, c.value, field))))
    case SetAddress(n, a, at) =>
      var c := RegisterRead(isa, r, m, n, at);
      if c.None? then Fault
      else Written(RegisterWrite(isa, r, m, n, isa.moveTo(c.value, a % U32)))
    case Device(answer) => Next(m, answer)
    // a store of data clears the tag; whether the guess was right goes to the log only
    case CheckSecret(_, cycles) => Next(m[r.secret := cycles.(tag := false)], None)
  }

  /** A JavaScript program chooses each operation from the results so far; a fault ends it. */
  type Program = seq<Option<int>> -> Op

  datatype Run = Run(mem: Memory, outs: seq<Option<int>>, faulted: bool)

  function Execute(isa: Isa, r: Roots, m: Memory, p: Program, n: nat): Run {
    if n == 0 then Run(m, [], false)
    else
      var before := Execute(isa, r, m, p, n - 1);
      if before.faulted then before
      else
        match Exec(isa, r, before.mem, p(before.outs))
        case Fault => before.(faulted := true)
        case Next(m', out) => Run(m', before.outs + [out], false)
  }

  // ----- authority -----------------------------------------------------------------

  predicate IsRoot(r: Roots, c: Cap) {
    c.tag && (c == r.csp.(addr := c.addr) || c == r.cgp.(addr := c.addr) || c == r.pcc.(addr := c.addr))
  }

  /** Reachable by at most n capability loads. */
  ghost predicate ReachIn(r: Roots, m: Memory, c: Cap, n: nat)
    decreases n
  {
    IsRoot(r, c) ||
    (n > 0 && c.tag && exists d, g {:trigger Fetches(m, d, g, c)} :: Fetches(m, d, g, c) && ReachIn(r, m, d, n - 1))
  }

  predicate Fetches(m: Memory, d: Cap, g: int, c: Cap) {
    Covers(d, g, 8, Load) && LoadStoreCap in d.perms && At(m, g) == c
  }

  ghost predicate Reach(r: Roots, m: Memory, c: Cap) { exists n: nat :: ReachIn(r, m, c, n) }

  /** No more authority than something reachable in memory `m`. */
  ghost predicate Below(r: Roots, m: Memory, c: Cap) {
    !c.tag || exists a :: Reach(r, m, a) && Within(c, a)
  }

  ghost predicate Fetchable(r: Roots, m: Memory, g: int) {
    exists d :: Reach(r, m, d) && Covers(d, g, 8, Load) && LoadStoreCap in d.perms
  }

  /** Every granule from which a reachable capability could be loaded holds nothing above
      the initial authority. */
  ghost predicate Confined(r: Roots, m0: Memory, m: Memory) {
    forall g :: Fetchable(r, m0, g) ==> Below(r, m0, At(m, g))
  }

  lemma ReachStep(r: Roots, m: Memory, d: Cap, g: int, c: Cap)
    requires Reach(r, m, d) && Fetches(m, d, g, c) && c.tag
    ensures Reach(r, m, c)
  {
    var n: nat :| ReachIn(r, m, d, n);
    assert ReachIn(r, m, c, n + 1);
  }

  lemma Confined0(r: Roots, m: Memory)
    ensures Confined(r, m, m)
  {
    forall g | Fetchable(r, m, g) ensures Below(r, m, At(m, g)) {
      var d :| Reach(r, m, d) && Covers(d, g, 8, Load) && LoadStoreCap in d.perms;
      var c := At(m, g);
      if c.tag {
        assert Fetches(m, d, g, c);
        ReachStep(r, m, d, g, c);
        assert Within(c, c);
      }
    }
  }

  lemma RootBelow(r: Roots, m: Memory, c: Cap)
    requires c.tag ==> IsRoot(r, c)
    ensures Below(r, m, c)
  {
    if c.tag {
      assert ReachIn(r, m, c, 0);
      assert Within(c, c);
    }
  }

  lemma WeakerBelow(r: Roots, m: Memory, c: Cap, a: Cap)
    requires Below(r, m, a) && Weaker(c, a)
    ensures Below(r, m, c)
  {
    if c.tag {
      var b :| Reach(r, m, b) && Within(a, b);
      assert Within(c, b);
    }
  }

  /** Loading through bounded authority yields bounded authority. */
  lemma LoadBelow(isa: Isa, r: Roots, m0: Memory, m: Memory, c: Cap)
    requires isa.Ok() && Confined(r, m0, m) && Below(r, m0, c)
    ensures var v := LoadCap(isa, m, c); v.Some? ==> Below(r, m0, v.value)
  {
    var v := LoadCap(isa, m, c);
    if v.Some? && v.value.tag {
      var a :| Reach(r, m0, a) && Within(c, a);
      assert Covers(a, c.addr, 8, Load);
      assert Fetchable(r, m0, c.addr);
      WeakerBelow(r, m0, v.value, At(m, c.addr));
    }
  }

  lemma StoreConfined(isa: Isa, r: Roots, m0: Memory, m: Memory, c: Cap, v: Cap)
    requires isa.Ok() && Confined(r, m0, m) && Below(r, m0, v)
    ensures var m' := StoreCap(isa, m, c, v); m'.Some? ==> Confined(r, m0, m'.value)
  {
    WeakerBelow(r, m0, isa.storeAs(c, v), v);
  }

  lemma ShiftedBelow(isa: Isa, r: Roots, m0: Memory, c: Cap, a: int)
    requires isa.Ok() && Below(r, m0, c)
    ensures Below(r, m0, isa.moveTo(c, a))
  {
    WeakerBelow(r, m0, isa.moveTo(c, a), c);
  }

  lemma FileBelow(isa: Isa, r: Roots, m0: Memory, m: Memory)
    requires isa.Ok() && Confined(r, m0, m)
    ensures var f := FilePointer(isa, r, m); f.Some? ==> Below(r, m0, f.value)
  {
    RootBelow(r, m0, r.csp);
    ShiftedBelow(isa, r, m0, r.csp, r.csp.top - 16);
    LoadBelow(isa, r, m0, m, isa.moveTo(r.csp, r.csp.top - 16));
  }

  lemma ReadBelow(isa: Isa, r: Roots, m0: Memory, m: Memory, n: int, at: int)
    requires isa.Ok() && Confined(r, m0, m)
    ensures var v := RegisterRead(isa, r, m, n, at); v.Some? ==> Below(r, m0, v.value)
  {
    if 0 <= n < 8 {
      FileBelow(isa, r, m0, m);
      var f := FilePointer(isa, r, m);
      if f.Some? {
        ShiftedBelow(isa, r, m0, f.value, (f.value.addr + 8 * n) % U32);
        LoadBelow(isa, r, m0, m, Shifted(isa, f.value, 8 * n));
      }
    } else {
      RootBelow(r, m0, RegisterRead(isa, r, m, n, at).value);
    }
  }

  lemma WriteConfined(isa: Isa, r: Roots, m0: Memory, m: Memory, n: int, v: Cap)
    requires isa.Ok() && Confined(r, m0, m) && Below(r, m0, v)
    ensures var m' := RegisterWrite(isa, r, m, n, v); m'.Some? ==> Confined(r, m0, m'.value)
  {
    if 0 <= n < 8 {
      var f := FilePointer(isa, r, m);
      if f.Some? { StoreConfined(isa, r, m0, m, Shifted(isa, f.value, 8 * n), v); }
    }
  }

  lemma ExecConfined(isa: Isa, r: Roots, m0: Memory, m: Memory, op: Op)
    requires isa.Ok() && Confined(r, m0, m)
    ensures var e := Exec(isa, r, m, op); e.Next? ==> Confined(r, m0, e.mem)
  {
    match op
    case Move(d, s, at) =>
      ReadBelow(isa, r, m0, m, s, at);
      var v := RegisterRead(isa, r, m, s, at);
      if v.Some? { WriteConfined(isa, r, m0, m, d, v.value); }
    case LoadTo(d, s, off, at) =>
      ReadBelow(isa, r, m0, m, s, at);
      var c := RegisterRead(isa, r, m, s, at);
      if c.Some? {
        ShiftedBelow(isa, r, m0, c.value, (c.value.addr + off) % U32);
        LoadBelow(isa, r, m0, m, Shifted(isa, c.value, off));
        var v := LoadCap(isa, m, Shifted(isa, c.value, off));
        if v.Some? { WriteConfined(isa, r, m0, m, d, v.value); }
      }
    case LoadInt(_, _, _) =>
    case StoreFrom(x, s, off, at) =>
      ReadBelow(isa, r, m0, m, x, at);
      var c, v := RegisterRead(isa, r, m, s, at), RegisterRead(isa, r, m, x, at);
      if c.Some? && v.Some? { StoreConfined(isa, r, m0, m, Shifted(isa, c.value, off), v.value); }
    case Get(_, _, _) =>
    case SetAddress(n, a, at) =>
      ReadBelow(isa, r, m0, m, n, at);
      var c := RegisterRead(isa, r, m, n, at);
      if c.Some? {
        ShiftedBelow(isa, r, m0, c.value, a % U32);
        WriteConfined(isa, r, m0, m, n, isa.moveTo(c.value, a % U32));
      }
    case Device(_) =>
    case CheckSecret(_, _) =>
  }

  lemma {:induction false} RunConfined(isa: Isa, r: Roots, m0: Memory, p: Program, n: nat)
    requires isa.Ok()
    ensures Confined(r, m0, Execute(isa, r, m0, p, n).mem)
  {
    if n == 0 {
      Confined0(r, m0);
    } else {
      RunConfined(isa, r, m0, p, n - 1);
      var before := Execute(isa, r, m0, p, n - 1);
      if !before.faulted { ExecConfined(isa, r, m0, before.mem, p(before.outs)); }
    }
  }

  // ----- what no program can do -------------------------------------------------------

  /** Whatever program runs, everything reachable afterwards has no more authority than
      something that was reachable before it started. */
  lemma {:induction false} ClosureIn(r: Roots, m0: Memory, m: Memory, c: Cap, k: nat)
    requires Confined(r, m0, m) && ReachIn(r, m, c, k)
    ensures Below(r, m0, c)
    decreases k
  {
    if IsRoot(r, c) {
      RootBelow(r, m0, c);
    } else {
      var d, g :| Fetches(m, d, g, c) && ReachIn(r, m, d, k - 1);
      ClosureIn(r, m0, m, d, k - 1);
      var a :| Reach(r, m0, a) && Within(d, a);
      assert Covers(a, g, 8, Load);
      assert Fetchable(r, m0, g);
    }
  }

  lemma NoNewAuthority(isa: Isa, r: Roots, m0: Memory, p: Program, n: nat, c: Cap)
    requires isa.Ok() && Reach(r, Execute(isa, r, m0, p, n).mem, c)
    ensures Below(r, m0, c)
  {
    RunConfined(isa, r, m0, p, n);
    var k: nat :| ReachIn(r, Execute(isa, r, m0, p, n).mem, c, k);
    ClosureIn(r, m0, Execute(isa, r, m0, p, n).mem, c, k);
  }

  /** A word returned to JavaScript comes from within a capability with load permission
      that was reachable at the start. */
  lemma WordsFromClosure(isa: Isa, r: Roots, m0: Memory, p: Program, n: nat, s: int, off: int, at: int)
    requires isa.Ok()
    requires var m := Execute(isa, r, m0, p, n).mem;
      RegisterRead(isa, r, m, s, at).Some? && Exec(isa, r, m, LoadInt(s, off, at)).Next?
    ensures var c := Shifted(isa, RegisterRead(isa, r, Execute(isa, r, m0, p, n).mem, s, at).value, off);
      exists a :: Reach(r, m0, a) && Covers(a, c.addr, 4, Load)
  {
    var m := Execute(isa, r, m0, p, n).mem;
    RunConfined(isa, r, m0, p, n);
    ReadBelow(isa, r, m0, m, s, at);
    var reg := RegisterRead(isa, r, m, s, at).value;
    var c := Shifted(isa, reg, off);
    ShiftedBelow(isa, r, m0, reg, (reg.addr + off) % U32);
    var a :| Reach(r, m0, a) && Within(c, a);
    assert Covers(a, c.addr, 4, Load);
  }

  // ----- integrity ----------------------------------------------------------------------

  ghost predicate Storable(r: Roots, m: Memory, g: int) {
    exists a :: Reach(r, m, a) && Covers(a, g, 8, Store)
  }

  /** Only granules under a reachable capability with store permission can differ, and the
      secret. */
  ghost predicate Intact(r: Roots, m0: Memory, m: Memory, m': Memory) {
    forall g :: At(m', g) != At(m, g) ==> Storable(r, m0, g) || g == r.secret
  }

  lemma StoreIntact(isa: Isa, r: Roots, m0: Memory, m: Memory, c: Cap, v: Cap)
    requires Below(r, m0, c)
    ensures var m' := StoreCap(isa, m, c, v); m'.Some? ==> Intact(r, m0, m, m'.value)
  {
    if StoreCap(isa, m, c, v).Some? {
      var a :| Reach(r, m0, a) && Within(c, a);
      assert Covers(a, c.addr, 8, Store);
    }
  }

  lemma WriteIntact(isa: Isa, r: Roots, m0: Memory, m: Memory, n: int, v: Cap)
    requires isa.Ok() && Confined(r, m0, m)
    ensures var m' := RegisterWrite(isa, r, m, n, v); m'.Some? ==> Intact(r, m0, m, m'.value)
  {
    if 0 <= n < 8 && FilePointer(isa, r, m).Some? {
      FileBelow(isa, r, m0, m);
      var f := FilePointer(isa, r, m).value;
      ShiftedBelow(isa, r, m0, f, (f.addr + 8 * n) % U32);
      StoreIntact(isa, r, m0, m, Shifted(isa, f, 8 * n), v);
    }
  }

  lemma ExecIntact(isa: Isa, r: Roots, m0: Memory, m: Memory, op: Op)
    requires isa.Ok() && Confined(r, m0, m)
    ensures var e := Exec(isa, r, m, op); e.Next? ==> Intact(r, m0, m, e.mem)
  {
    if Exec(isa, r, m, op).Next? {
      match op
      case Move(d, s, at) => WriteIntact(isa, r, m0, m, d, RegisterRead(isa, r, m, s, at).value);
      case LoadTo(d, s, off, at) =>
        var c := RegisterRead(isa, r, m, s, at).value;
        WriteIntact(isa, r, m0, m, d, LoadCap(isa, m, Shifted(isa, c, off)).value);
      case LoadInt(_, _, _) =>
      case StoreFrom(x, s, off, at) =>
        ReadBelow(isa, r, m0, m, s, at);
        var c := RegisterRead(isa, r, m, s, at).value;
        ShiftedBelow(isa, r, m0, c, (c.addr + off) % U32);
        StoreIntact(isa, r, m0, m, Shifted(isa, c, off), RegisterRead(isa, r, m, x, at).value);
      case Get(_, _, _) =>
      case SetAddress(n, a, at) =>
        WriteIntact(isa, r, m0, m, n, isa.moveTo(RegisterRead(isa, r, m, n, at).value, a % U32));
      case Device(_) =>
      case CheckSecret(_, _) =>
    }
  }

  /** No program changes memory outside the initial store closure, but for the secret that
      check_secret renews. */
  lemma {:induction false} Integrity(isa: Isa, r: Roots, m0: Memory, p: Program, n: nat)
    requires isa.Ok()
    ensures Intact(r, m0, m0, Execute(isa, r, m0, p, n).mem)
  {
    if n > 0 {
      Integrity(isa, r, m0, p, n - 1);
      RunConfined(isa, r, m0, p, n - 1);
      var before := Execute(isa, r, m0, p, n - 1);
      if !before.faulted { ExecIntact(isa, r, m0, before.mem, p(before.outs)); }
    }
  }

  // ----- confidentiality --------------------------------------------------------------------

  /** Some byte of granule `g` lies under a reachable capability with load permission. */
  ghost predicate Readable(r: Roots, m: Memory, g: int) {
    exists a :: Reach(r, m, a) && !a.sealed && Load in a.perms && a.base < g + 8 && g < a.top
  }

  /** Two memories that differ only where the closure of `m0` cannot read. */
  ghost predicate Agree(r: Roots, m0: Memory, m: Memory, m': Memory) {
    forall g :: Readable(r, m0, g) ==> At(m', g) == At(m, g)
  }

  lemma LoadAgrees(isa: Isa, r: Roots, m0: Memory, m: Memory, m': Memory, c: Cap)
    requires Below(r, m0, c) && Agree(r, m0, m, m')
    ensures LoadCap(isa, m', c) == LoadCap(isa, m, c)
    ensures LoadWord(isa, m', c) == LoadWord(isa, m, c)
  {
    if c.tag && !c.sealed && Load in c.perms {
      var a :| Reach(r, m0, a) && Within(c, a);
      if Covers(c, c.addr, 8, Load) { assert Readable(r, m0, c.addr); }
      if Covers(c, c.addr, 4, Load) { assert Readable(r, m0, c.addr - c.addr % 8); }
    }
  }

  lemma FileAgrees(isa: Isa, r: Roots, m0: Memory, m: Memory, m': Memory)
    requires isa.Ok() && Agree(r, m0, m, m')
    ensures FilePointer(isa, r, m') == FilePointer(isa, r, m)
  {
    RootBelow(r, m0, r.csp);
    ShiftedBelow(isa, r, m0, r.csp, r.csp.top - 16);
    LoadAgrees(isa, r, m0, m, m', isa.moveTo(r.csp, r.csp.top - 16));
  }

  lemma ReadAgrees(isa: Isa, r: Roots, m0: Memory, m: Memory, m': Memory, n: int, at: int)
    requires isa.Ok() && Confined(r, m0, m) && Agree(r, m0, m, m')
    ensures RegisterRead(isa, r, m', n, at) == RegisterRead(isa, r, m, n, at)
  {
    if 0 <= n < 8 {
      FileAgrees(isa, r, m0, m, m');
      FileBelow(isa, r, m0, m);
      var f := FilePointer(isa, r, m);
      if f.Some? {
        ShiftedBelow(isa, r, m0, f.value, (f.value.addr + 8 * n) % U32);
        LoadAgrees(isa, r, m0, m, m', Shifted(isa, f.value, 8 * n));
      }
    }
  }

  /** Same result, and memories that still agree. */
  ghost predicate Alike(r: Roots, m0: Memory, e: Effect, e': Effect) {
    (e.Fault? <==> e'.Fault?) && (e.Next? && e'.Next? ==> e'.out == e.out && Agree(r, m0, e.mem, e'.mem))
  }

  lemma WriteAgrees(isa: Isa, r: Roots, m0: Memory, m: Memory, m': Memory, n: int, v: Cap)
    requires isa.Ok() && Agree(r, m0, m, m')
    ensures Alike(r, m0, Written(RegisterWrite(isa, r, m, n, v)), Written(RegisterWrite(isa, r, m', n, v)))
  {
    FileAgrees(isa, r, m0, m, m');
  }

  lemma ExecAlike(isa: Isa, r: Roots, m0: Memory, m: Memory, m': Memory, op: Op)
    requires isa.Ok() && Confined(r, m0, m) && Agree(r, m0, m, m')
    ensures Alike(r, m0, Exec(isa, r, m, op), Exec(isa, r, m', op))
  {
    match op
    case Move(d, s, at) =>
      ReadAgrees(isa, r, m0, m, m', s, at);
      var v := RegisterRead(isa, r, m, s, at);
      if v.Some? { WriteAgrees(isa, r, m0, m, m', d, v.value); }
    case LoadTo(d, s, off, at) =>
      ReadAgrees(isa, r, m0, m, m', s, at);
      ReadBelow(isa, r, m0, m, s, at);
      var c := RegisterRead(isa, r, m, s, at);
      if c.Some? {
        ShiftedBelow(isa, r, m0, c.value, (c.value.addr + off) % U32);
        LoadAgrees(isa, r, m0, m, m', Shifted(isa, c.value, off));
        var v := LoadCap(isa, m, Shifted(isa, c.value, off));
        if v.Some? { WriteAgrees(isa, r, m0, m, m', d, v.value); }
      }
    case LoadInt(s, off, at) =>
      ReadAgrees(isa, r, m0, m, m', s, at);
      ReadBelow(isa, r, m0, m, s, at);
      var c := RegisterRead(isa, r, m, s, at);
      if c.Some? {
        ShiftedBelow(isa, r, m0, c.value, (c.value.addr + off) % U32);
        LoadAgrees(isa, r, m0, m, m', Shifted(isa, c.value, off));
      }
    case StoreFrom(x, s, off, at) =>
      ReadAgrees(isa, r, m0, m, m', s, at);
      ReadAgrees(isa, r, m0, m, m', x, at);
    case Get(_, n, at) => ReadAgrees(isa, r, m0, m, m', n, at);
    case SetAddress(n, a, at) =>
      ReadAgrees(isa, r, m0, m, m', n, at);
      var c := RegisterRead(isa, r, m, n, at);
      if c.Some? { WriteAgrees(isa, r, m0, m, m', n, isa.moveTo(c.value, a % U32)); }
    case Device(_) =>
    case CheckSecret(_, _) =>
  }

  /** Memory outside the initial load closure has no influence on anything a program sees:
      every program computes the same results, and faults at the same point, whatever a
      secret kept there may be. */
  lemma {:induction false} NonInterference(isa: Isa, r: Roots, m0: Memory, m0': Memory, p: Program, n: nat)
    requires isa.Ok() && Agree(r, m0, m0, m0')
    ensures Execute(isa, r, m0', p, n).outs == Execute(isa, r, m0, p, n).outs
    ensures Execute(isa, r, m0', p, n).faulted == Execute(isa, r, m0, p, n).faulted
    ensures Agree(r, m0, Execute(isa, r, m0, p, n).mem, Execute(isa, r, m0', p, n).mem)
  {
    if n > 0 {
      NonInterference(isa, r, m0, m0', p, n - 1);
      RunConfined(isa, r, m0, p, n - 1);
      var a, b := Execute(isa, r, m0, p, n - 1), Execute(isa, r, m0', p, n - 1);
      if !a.faulted { ExecAlike(isa, r, m0, a.mem, b.mem, p(a.outs)); }
    }
  }

  // ----- what the exported functions do ------------------------------------------------------------

  /** What loads and stores may cost a capability: nothing but its tag and permissions. */
  predicate Loses(c: Cap, a: Cap) {
    c == a.(tag := c.tag, perms := c.perms) && (c.tag ==> a.tag && c.perms <= a.perms)
  }

  /** And moving its address: the tag. */
  ghost predicate Exact(isa: Isa) {
    isa.Ok() && (forall via, v :: Loses(isa.loadAs(via, v), v)) && (forall via, v :: Loses(isa.storeAs(via, v), v)) &&
    (forall c, a :: isa.moveTo(c, a).tag ==> isa.moveTo(c, a) == c.(addr := a))
  }

  /** Where register `n` is kept, and what reading it gives back after `v` was written. */
  function Slot(isa: Isa, f: Cap, n: int): Cap { Shifted(isa, f, 8 * n) }

  function Kept(isa: Isa, f: Cap, n: int, v: Cap): Cap { isa.loadAs(Slot(isa, f, n), isa.storeAs(Slot(isa, f, n), v)) }

  /** The granule near the top of the stack in which the file pointer is kept. */
  function PointerAt(isa: Isa, r: Roots): Cap { isa.moveTo(r.csp, r.csp.top - 16) }

  /** state_set. */
  function StateSet(isa: Isa, r: Roots, m: Memory, rs: Cap): Option<Memory> {
    StoreCap(isa, m, isa.moveTo(r.csp, r.csp.top - 16), rs)
  }

  /** state() finds what state_set put there. */
  lemma StateFound(isa: Isa, r: Roots, m: Memory, rs: Cap)
    requires isa.Ok() && StateSet(isa, r, m, rs).Some? && Load in PointerAt(isa, r).perms
    ensures FilePointer(isa, r, StateSet(isa, r, m, rs).value) ==
      Some(isa.loadAs(PointerAt(isa, r), isa.storeAs(PointerAt(isa, r), rs)))
  {}

  /** All eight registers can be written and read, and none is where the file pointer is. */
  predicate FileUsable(isa: Isa, r: Roots, m: Memory, f: Cap) {
    FilePointer(isa, r, m) == Some(f) && forall n :: 0 <= n < 8 ==> SlotUsable(isa, r, Slot(isa, f, n))
  }

  predicate SlotUsable(isa: Isa, r: Roots, c: Cap) {
    Covers(c, c.addr, 8, Load) && Covers(c, c.addr, 8, Store) && c.addr != PointerAt(isa, r).addr
  }

  /** A granule that is no register and not the file pointer's. */
  predicate Elsewhere(isa: Isa, r: Roots, f: Cap, g: int) {
    g != PointerAt(isa, r).addr && forall n :: 0 <= n < 8 ==> g != Slot(isa, f, n).addr
  }

  /** Nothing but granule `g` differs. */
  ghost predicate OnlyAt(m: Memory, m': Memory, g: int) { forall h :: h != g ==> At(m', h) == At(m, h) }

  lemma SlotsApart(isa: Isa, f: Cap, i: int, j: int)
    requires isa.Ok() && 0 <= i < j < 8
    ensures Slot(isa, f, i).addr != Slot(isa, f, j).addr
  {}

  /** Writing a register and reading it gives back what was written, up to what the
      architecture drops; the other seven are as they were, and so is all other memory. */
  lemma WriteRead(isa: Isa, r: Roots, m: Memory, f: Cap, n: int, v: Cap, at: int)
    requires isa.Ok() && FileUsable(isa, r, m, f) && 0 <= n < 8
    ensures var w := RegisterWrite(isa, r, m, n, v);
      w.Some? && FileUsable(isa, r, w.value, f) && OnlyAt(m, w.value, Slot(isa, f, n).addr) &&
      RegisterRead(isa, r, w.value, n, at) == Some(Kept(isa, f, n, v)) &&
      forall i :: 0 <= i < 8 && i != n ==> RegisterRead(isa, r, w.value, i, at) == RegisterRead(isa, r, m, i, at)
  {
    var w, c := RegisterWrite(isa, r, m, n, v), Slot(isa, f, n);
    assert SlotUsable(isa, r, c);
    assert w.Some? && w.value == m[c.addr := isa.storeAs(c, v)];
    assert FilePointer(isa, r, w.value) == FilePointer(isa, r, m);
    forall i | 0 <= i < 8 && i != n
      ensures RegisterRead(isa, r, w.value, i, at) == RegisterRead(isa, r, m, i, at)
    {
      SlotsApart(isa, f, if i < n then i else n, if i < n then n else i);
    }
  }

  /** Storing outside the register file leaves every register as it was. */
  lemma RegistersKept(isa: Isa, r: Roots, m: Memory, m': Memory, f: Cap, g: int)
    requires isa.Ok() && FileUsable(isa, r, m, f) && Elsewhere(isa, r, f, g) && OnlyAt(m, m', g)
    ensures FileUsable(isa, r, m', f)
    ensures forall n, at :: RegisterRead(isa, r, m', n, at) == RegisterRead(isa, r, m, n, at)
  {
    assert FilePointer(isa, r, m') == FilePointer(isa, r, m);
    forall n, at ensures RegisterRead(isa, r, m', n, at) == RegisterRead(isa, r, m, n, at) {
      if 0 <= n < 8 { assert SlotUsable(isa, r, Slot(isa, f, n)) && Slot(isa, f, n).addr != g; }
    }
  }

  /** Register 8 is csp, 9 cgp and 10 pcc; these cannot be written, and no others exist. */
  lemma MachineRegisters(isa: Isa, r: Roots, m: Memory, n: int, at: int, v: Cap)
    ensures RegisterRead(isa, r, m, 8, at) == Some(r.csp.(addr := at))
    ensures RegisterRead(isa, r, m, 9, at) == Some(r.cgp.(addr := at))
    ensures RegisterRead(isa, r, m, 10, at) == Some(r.pcc.(addr := at))
    ensures n < 0 || n > 10 ==> RegisterRead(isa, r, m, n, at) == Some(NULL)
    ensures n < 0 || n >= 8 ==> RegisterWrite(isa, r, m, n, v) == Some(m)
  {}

  /** What register `d` has become, everything else being as it was. */
  ghost predicate Became(isa: Isa, r: Roots, m: Memory, m': Memory, f: Cap, d: int, v: Cap) {
    FileUsable(isa, r, m', f) && OnlyAt(m, m', Slot(isa, f, d).addr) &&
    RegisterRead(isa, r, m', d, 0) == Some(Kept(isa, f, d, v)) &&
    forall i :: 0 <= i < 8 && i != d ==> RegisterRead(isa, r, m', i, 0) == RegisterRead(isa, r, m, i, 0)
  }

  /** move: the destination holds what the source held. */
  lemma Moves(isa: Isa, r: Roots, m: Memory, f: Cap, d: int, s: int, at: int, v: Cap)
    requires isa.Ok() && FileUsable(isa, r, m, f) && 0 <= d < 8 && RegisterRead(isa, r, m, s, at) == Some(v)
    ensures var e := Exec(isa, r, m, Move(d, s, at)); e.Next? && e.out == None && Became(isa, r, m, e.mem, f, d, v)
  {
    WriteRead(isa, r, m, f, d, v, 0);
  }

  /** load: the destination holds what is at register plus offset. */
  lemma Loads(isa: Isa, r: Roots, m: Memory, f: Cap, d: int, s: int, off: int, at: int, c: Cap)
    requires isa.Ok() && FileUsable(isa, r, m, f) && 0 <= d < 8 && RegisterRead(isa, r, m, s, at) == Some(c)
    requires var a := (c.addr + off) % U32; Covers(isa.moveTo(c, a), a, 8, Load)
    ensures var a := (c.addr + off) % U32;
      var e := Exec(isa, r, m, LoadTo(d, s, off, at));
      e.Next? && e.out == None && Became(isa, r, m, e.mem, f, d, isa.loadAs(isa.moveTo(c, a), At(m, a)))
  {
    var a := (c.addr + off) % U32;
    WriteRead(isa, r, m, f, d, isa.loadAs(isa.moveTo(c, a), At(m, a)), 0);
  }

  /** store: what the value register held is at register plus offset, and nowhere else. */
  lemma Stores(isa: Isa, r: Roots, m: Memory, f: Cap, x: int, s: int, off: int, at: int, c: Cap, v: Cap)
    requires isa.Ok() && FileUsable(isa, r, m, f)
    requires RegisterRead(isa, r, m, s, at) == Some(c) && RegisterRead(isa, r, m, x, at) == Some(v)
    requires var a := (c.addr + off) % U32; Covers(isa.moveTo(c, a), a, 8, Store) && Elsewhere(isa, r, f, a)
    ensures var a := (c.addr + off) % U32;
      var e := Exec(isa, r, m, StoreFrom(x, s, off, at));
      e.Next? && e.out == None && OnlyAt(m, e.mem, a) && At(e.mem, a) == isa.storeAs(isa.moveTo(c, a), v) &&
      FileUsable(isa, r, e.mem, f) &&
      forall n, b :: RegisterRead(isa, r, e.mem, n, b) == RegisterRead(isa, r, m, n, b)
  {
    var a := (c.addr + off) % U32;
    var e := Exec(isa, r, m, StoreFrom(x, s, off, at));
    assert e.Next? && e.mem == m[a := isa.storeAs(isa.moveTo(c, a), v)];
    RegistersKept(isa, r, m, e.mem, f, a);
  }

  /** Storing register x and loading from there into d gives back what x held: the same
      address and bounds always, the same capability where nothing is dropped. */
  lemma StoreThenLoad(isa: Isa, r: Roots, m: Memory, f: Cap, x: int, d: int, s: int, off: int, at: int,
                      c: Cap, v: Cap)
    requires Exact(isa) && FileUsable(isa, r, m, f) && 0 <= d < 8
    requires RegisterRead(isa, r, m, s, at) == Some(c) && RegisterRead(isa, r, m, x, at) == Some(v)
    requires var a := (c.addr + off) % U32;
      Covers(isa.moveTo(c, a), a, 8, Store) && Covers(isa.moveTo(c, a), a, 8, Load) && Elsewhere(isa, r, f, a)
    ensures var a := (c.addr + off) % U32;
      var e := Exec(isa, r, m, StoreFrom(x, s, off, at));
      e.Next? &&
      var e' := Exec(isa, r, e.mem, LoadTo(d, s, off, at));
      e'.Next? && RegisterRead(isa, r, e'.mem, d, 0).Some? &&
      Loses(RegisterRead(isa, r, e'.mem, d, 0).value, v) &&
      (Lossless(isa) && LoadStoreCap in c.perms && LoadStoreCap in f.perms ==>
        RegisterRead(isa, r, e'.mem, d, 0).value == v) &&
      (forall g :: g != a && g != Slot(isa, f, d).addr ==> At(e'.mem, g) == At(m, g)) &&
      forall i :: 0 <= i < 8 && i != d ==> RegisterRead(isa, r, e'.mem, i, 0) == RegisterRead(isa, r, m, i, 0)
  {
    var a := (c.addr + off) % U32;
    Stores(isa, r, m, f, x, s, off, at, c, v);
    var m' := Exec(isa, r, m, StoreFrom(x, s, off, at)).mem;
    Loads(isa, r, m', f, d, s, off, at, c);
    var via := isa.moveTo(c, a);
    var u := isa.loadAs(via, isa.storeAs(via, v));
    assert Loses(isa.storeAs(via, v), v) && Loses(u, isa.storeAs(via, v));
    KeptLoses(isa, f, d, u);
  }

  lemma KeptLoses(isa: Isa, f: Cap, n: int, v: Cap)
    requires Exact(isa)
    ensures Loses(Kept(isa, f, n, v), v)
  {
    var c := Slot(isa, f, n);
    assert Loses(isa.storeAs(c, v), v) && Loses(isa.loadAs(c, isa.storeAs(c, v)), isa.storeAs(c, v));
  }

  /** load_int gives the word at register plus offset: one half of the granule it lies in. */
  lemma IntLoads(isa: Isa, r: Roots, m: Memory, s: int, off: int, at: int, c: Cap, g: int, hi: bool)
    requires isa.Ok() && RegisterRead(isa, r, m, s, at) == Some(c)
    requires g % 8 == 0 && (c.addr + off) % U32 == g + if hi then 4 else 0
    requires Covers(isa.moveTo(c, (c.addr + off) % U32), (c.addr + off) % U32, 4, Load)
    ensures Exec(isa, r, m, LoadInt(s, off, at)) == Next(m, Some(isa.word(At(m, g), hi)))
  {}

  /** A 32-bit result is the same number modulo 2^32, as a signed one. */
  lemma Signed(a: int)
    ensures -0x8000_0000 <= Int32(a) < 0x8000_0000 && (Int32(a) - a) % U32 == 0
  {}

  /** get_address, get_base, get_length and get_permissions of any register. */
  lemma Gets(isa: Isa, r: Roots, m: Memory, n: int, at: int, c: Cap)
    requires RegisterRead(isa, r, m, n, at) == Some(c)
    ensures Exec(isa, r, m, Get(Address, n, at)) == Next(m, Some(Int32(c.addr)))
    ensures Exec(isa, r, m, Get(Base, n, at)) == Next(m, Some(Int32(c.base)))
    ensures Exec(isa, r, m, Get(Length, n, at)) == Next(m, Some(Int32(c.top - c.base)))
    ensures Exec(isa, r, m, Get(Permissions, n, at)) == Next(m, Some(Int32(isa.raw(c.perms))))
  {}

  /** check_secret replaces the secret by data and touches nothing else, whatever the guess;
      the devices change no memory, and their answer is handed on. */
  lemma Renews(isa: Isa, r: Roots, m: Memory, guess: int, cycles: Cap, answer: Option<int>)
    ensures var e := Exec(isa, r, m, CheckSecret(guess, cycles));
      e.Next? && e.out == None && OnlyAt(m, e.mem, r.secret) && !At(e.mem, r.secret).tag &&
      Loses(At(e.mem, r.secret), cycles)
    ensures Exec(isa, r, m, Device(answer)) == Next(m, answer)
  {}

  /** set_address and then get_address gives the address that was set, modulo 2^32; as long
      as the capability stays valid its bounds are those it had. */
  lemma SetThenGet(isa: Isa, r: Roots, m: Memory, f: Cap, n: int, a: int, c: Cap)
    requires Exact(isa) && FileUsable(isa, r, m, f) && 0 <= n < 8 && RegisterRead(isa, r, m, n, 0) == Some(c)
    ensures var e := Exec(isa, r, m, SetAddress(n, a, 0));
      e.Next? && Exec(isa, r, e.mem, Get(Address, n, 0)) == Next(e.mem, Some(Int32(a))) &&
      RegisterRead(isa, r, e.mem, n, 0).Some? &&
      (RegisterRead(isa, r, e.mem, n, 0).value.tag ==>
        RegisterRead(isa, r, e.mem, n, 0).value.base == c.base &&
        RegisterRead(isa, r, e.mem, n, 0).value.top == c.top) &&
      forall i :: 0 <= i < 8 && i != n ==> RegisterRead(isa, r, e.mem, i, 0) == RegisterRead(isa, r, m, i, 0)
  {
    var v := isa.moveTo(c, a % U32);
    WriteRead(isa, r, m, f, n, v, 0);
    KeptLoses(isa, f, n, v);
    var m' := Exec(isa, r, m, SetAddress(n, a, 0)).mem;
    Gets(isa, r, m', n, 0, Kept(isa, f, n, v));
    assert (a % U32) % U32 == a % U32;
  }

  // ----- what programs can do ------------------------------------------------------------------

  /** Register 0 can be written and read, and is not where the file pointer is kept. */
  predicate FileReady(isa: Isa, r: Roots, m: Memory, f: Cap) {
    var c := Slot(isa, f, 0);
    FilePointer(isa, r, m) == Some(f) && Covers(c, c.addr, 8, Load) && Covers(c, c.addr, 8, Store) &&
    c.addr != isa.moveTo(r.csp, r.csp.top - 16).addr
  }

  /** `c` is what register 0 holds after following `path` from a root, one load at a time:
      whatever the architecture drops on the way is dropped. */
  ghost predicate PathTo(isa: Isa, r: Roots, m: Memory, f: Cap, c: Cap, path: seq<int>)
    decreases |path|
  {
    if path == [] then exists a :: IsRoot(r, a) && c == Kept(isa, f, 0, a)
    else
      var g := path[|path| - 1];
      0 <= g < U32 && g != Slot(isa, f, 0).addr &&
      exists d :: Follows(isa, m, f, d, g, c) && PathTo(isa, r, m, f, d, path[..|path| - 1])
  }

  /** Loading from `g` through `d` leaves `c` in register 0. */
  predicate Follows(isa: Isa, m: Memory, f: Cap, d: Cap, g: int, c: Cap) {
    var via := isa.moveTo(d, g);
    Covers(via, g, 8, Load) && c == Kept(isa, f, 0, isa.loadAs(via, At(m, g)))
  }

  ghost predicate SameElsewhere(isa: Isa, f: Cap, m: Memory, m': Memory) {
    forall g :: g != Slot(isa, f, 0).addr ==> At(m', g) == At(m, g)
  }

  /** Writing register 0 and reading it back. */
  lemma WriteBack(isa: Isa, r: Roots, m: Memory, f: Cap, m1: Memory, v: Cap)
    requires isa.Ok() && FileReady(isa, r, m1, f) && SameElsewhere(isa, f, m, m1)
    ensures var w := RegisterWrite(isa, r, m1, 0, v);
      w.Some? && SameElsewhere(isa, f, m, w.value) && FileReady(isa, r, w.value, f) &&
      RegisterRead(isa, r, w.value, 0, 0) == Some(Kept(isa, f, 0, v))
  {
    var w, c := RegisterWrite(isa, r, m1, 0, v), Slot(isa, f, 0);
    assert w.Some? && w.value == m1[c.addr := isa.storeAs(c, v)];
    assert FilePointer(isa, r, w.value) == FilePointer(isa, r, m1);
  }

  function RunOps(isa: Isa, r: Roots, m: Memory, ops: seq<Op>): Option<Memory> {
    if ops == [] then Some(m)
    else
      var before := RunOps(isa, r, m, ops[..|ops| - 1]);
      if before.None? then None
      else
        match Exec(isa, r, before.value, ops[|ops| - 1])
        case Fault => None
        case Next(m', _) => Some(m')
  }

  /** Register 0 holds what it should, and nothing else has changed. */
  ghost predicate Holding(isa: Isa, r: Roots, m: Memory, f: Cap, m1: Memory, c: Cap) {
    SameElsewhere(isa, f, m, m1) && FileReady(isa, r, m1, f) && RegisterRead(isa, r, m1, 0, 0) == Some(c)
  }

  lemma FollowOne(isa: Isa, r: Roots, m: Memory, f: Cap, m1: Memory, d: Cap, g: int, c: Cap)
    requires isa.Ok() && Holding(isa, r, m, f, m1, d)
    requires Follows(isa, m, f, d, g, c) && g != Slot(isa, f, 0).addr && 0 <= g < U32
    ensures var e := Exec(isa, r, m1, LoadTo(0, 0, g - d.addr, 0));
      e.Next? && Holding(isa, r, m, f, e.mem, c)
  {
    var via := isa.moveTo(d, g);
    assert At(m1, g) == At(m, g);
    assert (d.addr + (g - d.addr)) % U32 == g;
    assert LoadCap(isa, m1, Shifted(isa, d, g - d.addr)) == Some(isa.loadAs(via, At(m, g)));
    WriteBack(isa, r, m, f, m1, isa.loadAs(via, At(m, g)));
  }

  lemma {:induction false} ObtainOps(isa: Isa, r: Roots, m: Memory, f: Cap, c: Cap, path: seq<int>)
    returns (ops: seq<Op>)
    requires isa.Ok() && FileReady(isa, r, m, f) && PathTo(isa, r, m, f, c, path)
    ensures |ops| == |path| + 1
    ensures var e := RunOps(isa, r, m, ops); e.Some? && Holding(isa, r, m, f, e.value, c)
    decreases |path|
  {
    if path == [] {
      var a :| IsRoot(r, a) && c == Kept(isa, f, 0, a);
      var n := if a == r.csp.(addr := a.addr) then 8 else if a == r.cgp.(addr := a.addr) then 9 else 10;
      ops := [Move(0, n, a.addr)];
      assert ops[..0] == [];
      WriteBack(isa, r, m, f, m, a);
    } else {
      var g := path[|path| - 1];
      var d :| Follows(isa, m, f, d, g, c) && PathTo(isa, r, m, f, d, path[..|path| - 1]);
      var first := ObtainOps(isa, r, m, f, d, path[..|path| - 1]);
      ops := first + [LoadTo(0, 0, g - d.addr, 0)];
      assert ops[..|ops| - 1] == first;
      FollowOne(isa, r, m, f, RunOps(isa, r, m, first).value, d, g, c);
    }
  }

  /** The program that performs a fixed list of operations. */
  function Script(ops: seq<Op>): Program {
    (outs: seq<Option<int>>) => if |outs| < |ops| then ops[|outs|] else Get(Address, 0, 0)
  }

  lemma {:induction false} ScriptRuns(isa: Isa, r: Roots, m: Memory, ops: seq<Op>, n: nat)
    requires n <= |ops| && RunOps(isa, r, m, ops[..n]).Some?
    ensures var e := Execute(isa, r, m, Script(ops), n);
      !e.faulted && |e.outs| == n && e.mem == RunOps(isa, r, m, ops[..n]).value
  {
    if n > 0 {
      assert ops[..n][..n - 1] == ops[..n - 1];
      ScriptRuns(isa, r, m, ops, n - 1);
    }
  }

  /** On every architecture: whatever can be found from csp, cgp or pcc by following
      capabilities, with the losses of that architecture, some program brings into
      register 0. */
  lemma Obtainable(isa: Isa, r: Roots, m: Memory, f: Cap, c: Cap, path: seq<int>)
    requires isa.Ok() && FileReady(isa, r, m, f) && PathTo(isa, r, m, f, c, path)
    ensures exists p, n: nat ::
      !Execute(isa, r, m, p, n).faulted && RegisterRead(isa, r, Execute(isa, r, m, p, n).mem, 0, 0) == Some(c)
  {
    var ops := ObtainOps(isa, r, m, f, c, path);
    assert ops[..|ops|] == ops;
    ScriptRuns(isa, r, m, ops, |ops|);
  }

  /** An architecture that drops nothing it need not drop. */
  ghost predicate Lossless(isa: Isa) {
    (forall via: Cap, v: Cap :: LoadStoreCap in via.perms ==> isa.loadAs(via, v) == v) &&
    (forall via, v :: isa.storeAs(via, v) == v) &&
    (forall c, a :: isa.moveTo(c, a) == c.(addr := a))
  }

  /** `c` is reachable by following `path` in memory. */
  ghost predicate Linked(r: Roots, m: Memory, c: Cap, path: seq<int>)
    decreases |path|
  {
    if path == [] then IsRoot(r, c)
    else
      var g := path[|path| - 1];
      c.tag && exists d :: Fetches(m, d, g, c) && Linked(r, m, d, path[..|path| - 1])
  }

  /** There the closure is tight: every capability that is reachable without reading
      register 0 can be had unchanged. */
  lemma {:induction false} LosslessPath(isa: Isa, r: Roots, m: Memory, f: Cap, c: Cap, path: seq<int>)
    requires Lossless(isa) && LoadStoreCap in f.perms && Linked(r, m, c, path)
    requires forall i :: 0 <= i < |path| ==> 0 <= path[i] < U32 && path[i] != Slot(isa, f, 0).addr
    ensures PathTo(isa, r, m, f, c, path)
    decreases |path|
  {
    assert Kept(isa, f, 0, c) == c;
    if path != [] {
      var g := path[|path| - 1];
      var d :| Fetches(m, d, g, c) && Linked(r, m, d, path[..|path| - 1]);
      LosslessPath(isa, r, m, f, d, path[..|path| - 1]);
      assert Follows(isa, m, f, d, g, c);
    }
  }

  // ----- the exported functions as they are -------------------------------------------------------

  /** The virtual machine's memory, changed in place; `ok` false means the call faulted. */
  class RegisterMachine {
    const isa: Isa
    const roots: Roots
    var mem: Memory

    constructor (isa: Isa, roots: Roots, mem: Memory)
      ensures this.isa == isa && this.roots == roots && this.mem == mem
    {
      this.isa, this.roots, this.mem := isa, roots, mem;
    }

    method ReadRegister(regno: int, at: int) returns (ok: bool, value: Cap)
      ensures RegisterRead(isa, roots, mem, regno, at) == if ok then Some(value) else None
    {
      ok, value := true, NULL;
      if 0 <= regno < 8 {
        var file := LoadCap(isa, mem, isa.moveTo(roots.csp, roots.csp.top - 16));
        if file == None { return false, NULL; }
        var v := LoadCap(isa, mem, Shifted(isa, file.value, 8 * regno));
        if v == None { return false, NULL; }
        value := v.value;
      } else if regno == 8 {
        value := roots.csp.(addr := at);
      } else if regno == 9 {
        value := roots.cgp.(addr := at);
      } else if regno == 10 {
        value := roots.pcc.(addr := at);
      }
    }

    method WriteRegister(regno: int, value: Cap) returns (ok: bool)
      modifies this`mem
      ensures RegisterWrite(isa, roots, old(mem), regno, value) == if ok then Some(mem) else None
      ensures !ok ==> mem == old(mem)
    {
      ok := true;
      if 0 <= regno < 8 {
        var file := LoadCap(isa, mem, isa.moveTo(roots.csp, roots.csp.top - 16));
        if file == None { return false; }
        var m := StoreCap(isa, mem, Shifted(isa, file.value, 8 * regno), value);
        if m == None { return false; }
        mem := m.value;
      }
    }

    method ExportMove(destination: int, source: int, at: int) returns (ok: bool)
      modifies this`mem
      ensures Exec(isa, roots, old(mem), Move(destination, source, at)) == if ok then Next(mem, None) else Fault
    {
      var v;
      ok, v := ReadRegister(source, at);
      if ok { ok := WriteRegister(destination, v); }
    }

    method ExportLoad(destination: int, source: int, offset: int, at: int) returns (ok: bool)
      modifies this`mem
      ensures Exec(isa, roots, old(mem), LoadTo(destination, source, offset, at)) ==
        if ok then Next(mem, None) else Fault
    {
      var s;
      ok, s := ReadRegister(source, at);
      if !ok { return; }
      var v := LoadCap(isa, mem, Shifted(isa, s, offset));
      if v == None { return false; }
      ok := WriteRegister(destination, v.value);
    }

    method ExportLoadInt(source: int, offset: int, at: int) returns (ok: bool, value: int)
      ensures Exec(isa, roots, mem, LoadInt(source, offset, at)) == if ok then Next(mem, Some(value)) else Fault
    {
      var s;
      ok, s := ReadRegister(source, at);
      if !ok { return false, 0; }
      var x := LoadWord(isa, mem, Shifted(isa, s, offset));
      if x == None { return false, 0; }
      value := x.value;
    }

    method ExportStore(value: int, source: int, offset: int, at: int) returns (ok: bool)
      modifies this`mem
      ensures Exec(isa, roots, old(mem), StoreFrom(value, source, offset, at)) == if ok then Next(mem, None) else Fault
    {
      var s, v;
      ok, s := ReadRegister(source, at);
      if !ok { return; }
      ok, v := ReadRegister(value, at);
      if !ok { return; }
      var m := StoreCap(isa, mem, Shifted(isa, s, offset), v);
      if m == None { return false; }
      mem := m.value;
    }

    /** export_get_address, _base, _length and _permissions. */
    method ExportGet(field: Field, regno: int, at: int) returns (ok: bool, value: int)
      ensures Exec(isa, roots, mem, Get(field, regno, at)) == if ok then Next(mem, Some(value)) else Fault
    {
      var v;
      ok, v := ReadRegister(regno, at);
      value := if ok then Int32(Inspect(isa, v, field)) else 0;
    }

    method ExportSetAddress(regno: int, address: int, at: int) returns (ok: bool)
      modifies this`mem
      ensures Exec(isa, roots, old(mem), SetAddress(regno, address, at)) == if ok then Next(mem, None) else Fault
    {
      var v;
      ok, v := ReadRegister(regno, at);
      if ok { ok := WriteRegister(regno, isa.moveTo(v, address % U32)); }
    }
  }
}
