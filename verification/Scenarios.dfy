/** Runs that exist: how whole calls are played, one shared access at a time. */
module Scenarios {
  import opened Base
  import opened Machine
  import opened Invariant
  import opened Clients
  import opened Runs

  ghost predicate Ends(w: World, tr: seq<State>, s: State) { Run(w, tr) && tr[|tr| - 1] == s }

  /** Some run ends in `s`. */
  ghost predicate Can(w: World, s: State) { exists tr :: Ends(w, tr, s) }

  lemma CanStart(w: World, s: State)
    requires w.Ok() && Init(s)
    ensures Can(w, s)
  {
    assert Ends(w, [s], s);
  }

  lemma CanStep(w: World, s: State, st: Step)
    requires Can(w, s) && Enabled(w, s, st) && (st.PlainIt? && st.ch.Invoke? ==> Sensible(w, st.ch.op))
    ensures Can(w, Apply(w, s, st))
  {
    var tr :| Ends(w, tr, s);
    var more := tr + [Apply(w, s, st)];
    forall j, k | 0 <= j && k == j + 1 < |more| ensures Next(w, more[j], more[k]) {
      if k == |tr| { assert Next(w, s, Apply(w, s, st)); } else { assert Next(w, tr[j], tr[k]); }
    }
    assert Ends(w, more, Apply(w, s, st));
  }

  lemma CanInv(w: World, s: State)
    requires Can(w, s)
    ensures Inv(w, s)
  {
    var tr :| Ends(w, tr, s);
    RunInv(w, tr, |tr| - 1);
  }

  // ----- parts of a call ----------------------------------------------------------

  predicate At(s: State, t: Tid, c: Call) { t < |s.calls| == |s.clients| && s.calls[t] == c }

  /** From the entry to the search, with the list lock. */
  lemma PlaySearch(w: World, s: State, t: Tid, op: Op)
    requires Can(w, s) && At(s, t, Called(op)) && Unseals(op) && s.listLock.None?
    ensures Can(w, Goto(s, t, Finding(op, Searching)).(listLock := Some(t)))
  {
    var a := UnsealStep(s, t);
    CanStep(w, s, Unseal(t));
    assert FindStep(a, t, Go) == Goto(s, t, Finding(op, Searching)).(listLock := Some(t));
    CanStep(w, a, FindIt(t, Go));
  }

  /** The item is there. */
  lemma PlayFind(w: World, s: State, t: Tid, op: Op, id: Id)
    requires Can(w, s) && At(s, t, Called(op)) && Unseals(op) && s.listLock.None?
    requires FindItem(s.items, op.cap.name) == Some(id)
    ensures Can(w, Goto(s, t, Working(op, id, if op.Register? then WriteSize else WantItem)))
  {
    PlaySearch(w, s, t, op);
    var b := Goto(s, t, Finding(op, Searching)).(listLock := Some(t));
    var c := FindStep(b, t, Go);
    CanStep(w, b, FindIt(t, Go));
    var d := FindStep(c, t, Go);
    CanStep(w, c, FindIt(t, Go));
    assert d == Goto(s, t, Working(op, id, if op.Register? then WriteSize else WantItem));
  }

  /** The item is not there, and is linked. */
  lemma PlayLink(w: World, s: State, t: Tid, op: Op)
    requires Can(w, s) && At(s, t, Called(op)) && op.Register? && Unseals(op) && s.listLock.None?
    requires FindItem(s.items, op.cap.name) == None
    ensures Can(w, Goto(s, t, Working(op, |s.items|, WriteSize)).(items := s.items + [NewItem(op.cap.name)]))
  {
    PlaySearch(w, s, t, op);
    var b := Goto(s, t, Finding(op, Searching)).(listLock := Some(t));
    var c := Goto(s, t, Finding(op, Linking)).(listLock := Some(t));
    assert FindStep(b, t, Go) == c;
    CanStep(w, b, FindIt(t, Go));
    PlayInsert(w, c, t, op);
    var e := Goto(c, t, Working(op, |s.items|, WriteSize)).(
      items := c.items + [NewItem(op.cap.name)], listLock := None);
    assert e == Goto(s, t, Working(op, |s.items|, WriteSize)).(items := s.items + [NewItem(op.cap.name)]);
  }

  lemma PlayInsert(w: World, s: State, t: Tid, op: Op)
    requires Can(w, s) && At(s, t, Finding(op, Linking)) && op.Register? && op.cap.Sealed?
    ensures Can(w, Goto(s, t, Working(op, |s.items|, WriteSize)).(
      items := s.items + [NewItem(op.cap.name)], listLock := None))
  {
    var d := FindStep(s, t, Go);
    CanStep(w, s, FindIt(t, Go));
    assert FindStep(d, t, Go) == Goto(s, t, Working(op, |s.items|, WriteSize)).(
      items := s.items + [NewItem(op.cap.name)], listLock := None);
    CanStep(w, d, FindIt(t, Go));
  }

  lemma PlayGet(w: World, s: State, t: Tid, op: Op, id: Id)
    requires Can(w, s) && At(s, t, Working(op, id, WantItem)) && op.Get? && id < |s.items| && s.items[id].lock.None?
    ensures var it := s.items[id];
      Can(w, Goto(s, t, Returned(op, Found(id, it.version, |it.values|, it.data))))
  {
    var it := s.items[id];
    var a := Put(Goto(s, t, Working(op, id, ReadVersion)), id, it.(lock := Some(t)));
    assert LockStep(s, t) == a;
    CanStep(w, s, Lock(t));
    PlayRead(w, a, t, op, id);
    var d := Goto(Put(a, id, a.items[id].(lock := None)), t, Returned(op, Found(id, it.version, |it.values|, it.data)));
    assert d.items == s.items;
    assert d == Goto(s, t, Returned(op, Found(id, it.version, |it.values|, it.data)));
  }

  lemma PlayRead(w: World, s: State, t: Tid, op: Op, id: Id)
    requires Can(w, s) && At(s, t, Working(op, id, ReadVersion)) && op.Get? && id < |s.items|
    ensures var it := s.items[id];
      Can(w, Goto(Put(s, id, it.(lock := None)), t, Returned(op, Found(id, it.version, |it.values|, it.data))))
  {
    var b := GetStep(s, t);
    CanStep(w, s, GetIt(t));
    var c := GetStep(b, t);
    CanStep(w, b, GetIt(t));
    var d := GetStep(c, t);
    CanStep(w, c, GetIt(t));
    var it := s.items[id];
    assert d == Goto(Put(s, id, it.(lock := None)), t, Returned(op, Found(id, it.version, |it.values|, it.data)));
  }

  /** A whole get_config, from the call to its answer: nothing else changes. */
  lemma PlayWholeGet(w: World, s: State, t: Tid, n: Name, id: Id)
    requires var op := Get(Sealed(ReadKey, n));
      Can(w, s) && At(s, t, Called(op)) && s.listLock.None? &&
      FindItem(s.items, n) == Some(id) && s.items[id].lock.None?
    ensures var it := s.items[id];
      Can(w, Goto(s, t, Returned(Get(Sealed(ReadKey, n)), Found(id, it.version, |it.values|, it.data))))
  {
    var op := Get(Sealed(ReadKey, n));
    PlayFind(w, s, t, op, id);
    var a := Goto(s, t, Working(op, id, WantItem));
    PlayGet(w, a, t, op, id);
    var it := s.items[id];
    var r := Returned(op, Found(id, it.version, |it.values|, it.data));
    assert Goto(a, t, r) == Goto(s, t, r);
  }

  lemma PlayRegister(w: World, s: State, t: Tid, op: Op, id: Id)
    requires Can(w, s) && At(s, t, Working(op, id, WriteSize)) && op.Register? && op.cap.Sealed?
    requires op.cap.name in w.tokens && id < |s.items|
    ensures var token := w.tokens[op.cap.name];
      Can(w, Goto(Put(s, id, s.items[id].(size := token.size, minTicks := token.minTicks, parser := true)), t,
                  Returned(op, Status(OK))))
  {
    var token := w.tokens[op.cap.name];
    var a := Goto(Put(s, id, s.items[id].(size := token.size)), t, Working(op, id, WriteTicks));
    assert RegisterStep(w, s, t) == a;
    CanStep(w, s, RegisterIt(t));
    PlayInstall(w, a, t, op, id);
    var it := s.items[id].(size := token.size, minTicks := token.minTicks, parser := true);
    assert a.items[id].(minTicks := token.minTicks, parser := true) == it;
    assert Goto(Put(a, id, it), t, Returned(op, Status(OK))) == Goto(Put(s, id, it), t, Returned(op, Status(OK)));
  }

  lemma PlayInstall(w: World, s: State, t: Tid, op: Op, id: Id)
    requires Can(w, s) && At(s, t, Working(op, id, WriteTicks)) && op.Register? && op.cap.Sealed?
    requires op.cap.name in w.tokens && id < |s.items|
    ensures var token := w.tokens[op.cap.name];
      Can(w, Goto(Put(s, id, s.items[id].(minTicks := token.minTicks, parser := true)), t, Returned(op, Status(OK))))
  {
    var token := w.tokens[op.cap.name];
    var b := Goto(Put(s, id, s.items[id].(minTicks := token.minTicks)), t, Working(op, id, WriteParser));
    assert RegisterStep(w, s, t) == b;
    CanStep(w, s, RegisterIt(t));
    var it := s.items[id].(minTicks := token.minTicks, parser := true);
    assert RegisterStep(w, b, t) == Goto(Put(s, id, it), t, Returned(op, Status(OK)));
    CanStep(w, b, RegisterIt(t));
  }

  // ----- set_config behind the item lock ------------------------------------------------

  /** `t` is at `pc` with item `id`, whose published values are `values`; everybody else, and
      every other item, is as in `z`. */
  predicate During(z: State, s: State, t: Tid, op: Op, id: Id, pc: WorkPc, values: seq<Bytes>, clients: seq<Client>)
    requires t < |z.calls| && id < |z.items|
  {
    s.calls == z.calls[t := Working(op, id, pc)] && s.clients == clients && s.listLock == z.listLock &&
    |s.items| == |z.items| && (forall i :: 0 <= i < |z.items| && i != id ==> s.items[i] == z.items[i]) &&
    s.items[id].name == z.items[id].name && s.items[id].parser == z.items[id].parser &&
    s.items[id].size == z.items[id].size && s.items[id].minTicks == z.items[id].minTicks &&
    s.items[id].values == values && s.now == z.now
  }

  /** Up to the allocation. */
  lemma PlayAdmit(w: World, z: State, t: Tid, op: Op, id: Id) returns (s: State)
    requires Can(w, z) && At(z, t, Working(op, id, WantItem)) && op.Set? && Unseals(op) && id < |z.items|
    requires z.items[id].lock.None? && z.items[id].parser && z.items[id].nextUpdate <= z.now
    ensures Can(w, s) && During(z, s, t, op, id, Allocate, z.items[id].values, z.clients)
  {
    var a := Goto(Put(z, id, z.items[id].(lock := Some(t))), t, Working(op, id, CheckParser));
    assert LockStep(z, t) == a;
    CanStep(w, z, Lock(t));
    var b := Goto(a, t, Working(op, id, ReadTick));
    assert SetStep(w, a, t, Go) == b;
    CanStep(w, a, SetIt(t, Go));
    s := PlayRate(w, b, t, op, id);
    assert s.calls == z.calls[t := Working(op, id, Allocate)];
  }

  lemma PlayRate(w: World, z: State, t: Tid, op: Op, id: Id) returns (s: State)
    requires Can(w, z) && At(z, t, Working(op, id, ReadTick)) && op.Set? && Unseals(op) && id < |z.items|
    requires z.items[id].nextUpdate <= z.now
    ensures Can(w, s) && During(z, s, t, op, id, Allocate, z.items[id].values, z.clients)
  {
    var a := Goto(z, t, Working(op, id, CheckRate(z.now)));
    assert SetStep(w, z, t, Go) == a;
    CanStep(w, z, SetIt(t, Go));
    s := SetStep(w, a, t, Go);
    CanStep(w, a, SetIt(t, Go));
    assert s.calls == z.calls[t := Working(op, id, Allocate)];
  }

  /** A successful parse. */
  lemma PlayParse(w: World, z: State, y: State, t: Tid, op: Op, id: Id, v: Bytes) returns (s: State, o: Obj)
    requires Can(w, y) && t < |z.calls| == |z.clients| && id < |z.items| && op.Set? && Unseals(op)
    requires During(z, y, t, op, id, Allocate, z.items[id].values, z.clients)
    requires var n := z.items[id].name;
      n in w.tokens && |v| == w.tokens[n].size == z.items[id].size && w.tokens[n].parses(op.src, v)
    ensures Can(w, s) && During(z, s, t, op, id, Store(o), z.items[id].values, z.clients)
    ensures o in s.heap && s.heap[o].bytes == v
  {
    o := y.nextObj;
    var a := SetStep(w, y, t, Go);
    CanStep(w, y, SetIt(t, Go));
    assert a.calls == z.calls[t := Working(op, id, Parsing(o))];
    s := PlayWrite(w, z, a, t, op, id, v, o);
  }

  lemma PlayWrite(w: World, z: State, y: State, t: Tid, op: Op, id: Id, v: Bytes, o: Obj) returns (s: State)
    requires Can(w, y) && t < |z.calls| == |z.clients| && id < |z.items| && op.Set? && Unseals(op)
    requires During(z, y, t, op, id, Parsing(o), z.items[id].values, z.clients)
    requires var n := z.items[id].name;
      n in w.tokens && o in y.heap && |y.heap[o].bytes| == |v| && w.tokens[n].parses(op.src, v)
    ensures Can(w, s) && During(z, s, t, op, id, Store(o), z.items[id].values, z.clients)
    ensures o in s.heap && s.heap[o].bytes == v
  {
    var b := y.(heap := y.heap[o := y.heap[o].(bytes := v)]);
    assert SetStep(w, y, t, Write(v)) == b;
    CanStep(w, y, SetIt(t, Write(v)));
    s := SetStep(w, b, t, Go);
    CanStep(w, b, SetIt(t, Go));
    assert s.calls == z.calls[t := Working(op, id, Store(o))];
  }

  /** The store and the count. */
  lemma PlayBump(w: World, z: State, y: State, t: Tid, op: Op, id: Id, v: Bytes, o: Obj)
    returns (s: State, prev: Option<Obj>)
    requires Can(w, y) && t < |z.calls| == |z.clients| && id < |z.items| && op.Set? && Unseals(op)
    requires During(z, y, t, op, id, Store(o), z.items[id].values, z.clients) && o in y.heap && y.heap[o].bytes == v
    ensures Can(w, s) && During(z, s, t, op, id, Notify(prev), z.items[id].values + [v], z.clients)
  {
    prev := y.items[id].data;
    var a := SetStep(w, y, t, Go);
    CanStep(w, y, SetIt(t, Go));
    s := SetStep(w, a, t, Go);
    CanStep(w, a, SetIt(t, Go));
    assert s.calls == z.calls[t := Working(op, id, Notify(prev))];
  }

  /** Notifying and freeing. */
  lemma PlayFinish(w: World, z: State, y: State, t: Tid, op: Op, id: Id, values: seq<Bytes>, prev: Option<Obj>)
    returns (s: State)
    requires Can(w, y) && t < |z.calls| == |z.clients| && id < |z.items| && op.Set? && Unseals(op)
    requires During(z, y, t, op, id, Notify(prev), values, z.clients)
    ensures Can(w, s) && During(z, s, t, op, id, Exit(OK), values, NotifyAll(z.clients, id))
  {
    var a := SetStep(w, y, t, Go);
    CanStep(w, y, SetIt(t, Go));
    assert a.calls == z.calls[t := Working(op, id, FreeOld(prev))];
    s := PlayFree(w, z, a, t, op, id, values, prev);
  }

  lemma PlayFree(w: World, z: State, y: State, t: Tid, op: Op, id: Id, values: seq<Bytes>, prev: Option<Obj>)
    returns (s: State)
    requires Can(w, y) && t < |z.calls| == |z.clients| && id < |z.items| && op.Set? && Unseals(op)
    requires During(z, y, t, op, id, FreeOld(prev), values, NotifyAll(z.clients, id))
    ensures Can(w, s) && During(z, s, t, op, id, Exit(OK), values, NotifyAll(z.clients, id))
  {
    CanInv(w, y);
    assert InFlight(y.calls[t]) == prev;
    if prev.Some? { InFlightClaimed(w, y, t); }
    s := SetStep(w, y, t, Go);
    CanStep(w, y, SetIt(t, Go));
    assert s.calls == z.calls[t := Working(op, id, Exit(OK))];
  }

  // ----- whole calls ---------------------------------------------------------------------

  /** Nobody is in a call. */
  predicate Quiet(s: State) {
    |s.calls| == |s.clients| && s.listLock.None? &&
    (forall t :: 0 <= t < |s.calls| ==> s.calls[t].Idle?) &&
    (forall i :: 0 <= i < |s.items| ==> s.items[i].lock.None?)
  }

  /** And `id` is the registered item called `n`, with these published values. */
  predicate Shelf(s: State, n: Name, id: Id, values: seq<Bytes>) {
    Quiet(s) && id < |s.items| && s.items[id].name == n && s.items[id].parser && s.items[id].values == values
  }

  lemma FindAt(s: State, id: Id)
    requires Names(s) && id < |s.items|
    ensures FindItem(s.items, s.items[id].name) == Some(id)
  {
    var r := FindItem(s.items, s.items[id].name);
    assert r.Some? && r.value == id;
  }

  /** The clock may move on. */
  lemma PlayTick(w: World, s: State, to: nat)
    requires Can(w, s) && s.now <= to
    ensures Can(w, s.(now := to))
  {
    CanStep(w, s, Tick(to));
  }

  lemma PlayInvoke(w: World, s: State, t: Tid, op: Op)
    requires Can(w, s) && At(s, t, Idle) && s.clients[t].Plain? && Sensible(w, op)
    ensures Can(w, Goto(s, t, Called(op)))
  {
    CanStep(w, s, PlainIt(t, Invoke(op)));
  }

  lemma PlayDrop(w: World, s: State, t: Tid)
    requires Can(w, s) && t < |s.calls| == |s.clients| && s.clients[t].Plain? && s.calls[t].Returned?
    ensures Can(w, Goto(s, t, Idle))
  {
    CanStep(w, s, PlainIt(t, Go));
  }

  predicate OthersSame(s: State, e: State, id: Id) {
    |e.items| == |s.items| && forall i :: 0 <= i < |s.items| && i != id ==> e.items[i] == s.items[i]
  }

  /** A set_config with room, in time, for a source that parses. */
  lemma PlayPublish(w: World, s: State, t: Tid, n: Name, id: Id, values: seq<Bytes>, src: Bytes, v: Bytes)
    returns (e: State)
    requires Can(w, s) && Shelf(s, n, id, values) && t < |s.clients| && s.clients[t].Plain?
    requires n in w.tokens && |v| == w.tokens[n].size && w.tokens[n].parses(src, v)
    ensures Can(w, e) && Shelf(e, n, id, values + [v]) && e.clients == NotifyAll(s.clients, id) && OthersSame(s, e, id)
  {
    RegisteredSize(w, s, n, id, values);
    var op := Set(Sealed(WriteKey, n), src);
    var a := s.(now := if s.items[id].nextUpdate > s.now then s.items[id].nextUpdate else s.now);
    PlayTick(w, s, a.now);
    PlayInvoke(w, a, t, op);
    var b := Goto(a, t, Called(op));
    PlayFind(w, b, t, op, id);
    var z := Goto(b, t, Working(op, id, WantItem));
    var y := PlaySet(w, z, t, op, id, v);
    e := PlayExit(w, z, y, t, op, id, values + [v]);
    assert e.calls == s.calls;
  }

  lemma RegisteredSize(w: World, s: State, n: Name, id: Id, values: seq<Bytes>)
    requires Can(w, s) && Shelf(s, n, id, values)
    ensures n in w.tokens && s.items[id].size == w.tokens[n].size && FindItem(s.items, n) == Some(id)
  {
    CanInv(w, s);
    assert ItemOk(w, s, id);
    FindAt(s, id);
  }

  /** From the item lock to the return value. */
  lemma PlaySet(w: World, z: State, t: Tid, op: Op, id: Id, v: Bytes) returns (s: State)
    requires Can(w, z) && At(z, t, Working(op, id, WantItem)) && op.Set? && Unseals(op) && id < |z.items|
    requires z.items[id].lock.None? && z.items[id].parser && z.items[id].nextUpdate <= z.now
    requires var n := z.items[id].name;
      n in w.tokens && |v| == w.tokens[n].size == z.items[id].size && w.tokens[n].parses(op.src, v)
    ensures Can(w, s)
    ensures During(z, s, t, op, id, Exit(OK), z.items[id].values + [v], NotifyAll(z.clients, id))
  {
    var a := PlayAdmit(w, z, t, op, id);
    var b, o := PlayParse(w, z, a, t, op, id, v);
    var c, prev := PlayBump(w, z, b, t, op, id, v, o);
    s := PlayFinish(w, z, c, t, op, id, z.items[id].values + [v], prev);
  }

  /** Unlocking, and the caller dropping the result. */
  lemma PlayExit(w: World, z: State, y: State, t: Tid, op: Op, id: Id, values: seq<Bytes>) returns (s: State)
    requires Can(w, y) && At(z, t, Working(op, id, WantItem)) && op.Set? && Unseals(op) && id < |z.items|
    requires z.clients[t].Plain? && During(z, y, t, op, id, Exit(OK), values, NotifyAll(z.clients, id))
    ensures Can(w, s) && s.calls == z.calls[t := Idle] && s.clients == NotifyAll(z.clients, id)
    ensures s.listLock == z.listLock && |s.items| == |z.items| && s.now == z.now
    ensures forall i :: 0 <= i < |z.items| && i != id ==> s.items[i] == z.items[i]
    ensures s.items[id].name == z.items[id].name && s.items[id].parser == z.items[id].parser
    ensures s.items[id].values == values && s.items[id].lock.None?
  {
    var a := SetStep(w, y, t, Go);
    CanStep(w, y, SetIt(t, Go));
    PlayDrop(w, a, t);
    s := Goto(a, t, Idle);
  }

  /** Any number of them; nobody who is not blocked notices. */
  lemma {:induction false} PlayMany(w: World, s: State, t: Tid, n: Name, id: Id, values: seq<Bytes>,
                                    src: Bytes, v: Bytes, k: nat) returns (e: State, more: seq<Bytes>)
    requires Can(w, s) && Shelf(s, n, id, values) && t < |s.clients| && s.clients[t].Plain?
    requires n in w.tokens && |v| == w.tokens[n].size && w.tokens[n].parses(src, v)
    requires forall u :: 0 <= u < |s.clients| ==> !(s.clients[u].Loop? && s.clients[u].lpc.Blocked?)
    ensures Can(w, e) && Shelf(e, n, id, more) && |more| == |values| + k && e.clients == s.clients
    ensures OthersSame(s, e, id)
    decreases k
  {
    if k == 0 {
      e, more := s, values;
    } else {
      var a := PlayPublish(w, s, t, n, id, values, src, v);
      assert a.clients == s.clients;
      e, more := PlayMany(w, a, t, n, id, values + [v], src, v, k - 1);
    }
  }

  /** A set_parser for a name that nobody has used. */
  lemma PlayNewRegister(w: World, s: State, t: Tid, n: Name) returns (e: State)
    requires Can(w, s) && Quiet(s) && t < |s.clients| && s.clients[t].Plain? && n in w.tokens
    requires FindItem(s.items, n) == None
    ensures Can(w, e) && Shelf(e, n, |s.items|, []) && e.clients == s.clients
    ensures |e.items| == |s.items| + 1 && e.items[..|s.items|] == s.items
  {
    var op, id := Register(Sealed(ParserKey, n)), |s.items|;
    PlayInvoke(w, s, t, op);
    var a := Goto(s, t, Called(op));
    PlayLink(w, a, t, op);
    var b := Goto(a, t, Working(op, id, WriteSize)).(items := s.items + [NewItem(n)]);
    PlayRegister(w, b, t, op, id);
    var token := w.tokens[n];
    var it := b.items[id].(size := token.size, minTicks := token.minTicks, parser := true);
    var c := Goto(Put(b, id, it), t, Returned(op, Status(OK)));
    PlayDrop(w, c, t);
    e := Goto(c, t, Idle);
    assert e.items == s.items + [it];
  }

  // ----- several items -------------------------------------------------------------------

  ghost predicate Publishable(w: World, n: Name, src: Bytes, v: Bytes) {
    w.Ok() && n in w.tokens && |v| == w.tokens[n].size && w.tokens[n].parses(src, v)
  }

  ghost predicate CanParse(w: World, n: Name) { exists src, v :: Publishable(w, n, src, v) }

  predicate Distinct(names: seq<Name>) { forall i, j :: 0 <= i < j < |names| ==> names[i] != names[j] }

  ghost predicate AllParse(w: World, names: seq<Name>) {
    w.Ok() && Distinct(names) && forall i :: 0 <= i < |names| ==> CanParse(w, names[i])
  }

  /** Nobody is in a call, and these are the items, registered, with that many values each. */
  predicate Shelves(s: State, names: seq<Name>, counts: seq<nat>) {
    Quiet(s) && |s.items| == |names| == |counts| &&
    forall i :: 0 <= i < |names| ==>
      s.items[i].name == names[i] && s.items[i].parser && |s.items[i].values| == counts[i]
  }

  /** Thread 1 is free, and no other client is blocked. */
  predicate Unblocked(clients: seq<Client>) {
    |clients| == 2 && clients[1].Plain? && !(clients[0].Loop? && clients[0].lpc.Blocked?)
  }

  lemma {:induction false} PlayRegisters(w: World, s: State, names: seq<Name>) returns (e: State)
    requires Can(w, s) && AllParse(w, names) && |s.items| <= |names| && Unblocked(s.clients)
    requires Shelves(s, names[..|s.items|], seq(|s.items|, _ => 0))
    ensures Can(w, e) && Shelves(e, names, seq(|names|, _ => 0)) && e.clients == s.clients
    decreases |names| - |s.items|
  {
    var k := |s.items|;
    if k == |names| {
      e := s;
      assert names[..k] == names;
    } else {
      var n := names[k];
      assert CanParse(w, n);
      assert forall i :: 0 <= i < k ==> names[..k][i] == names[i];
      var a := PlayNewRegister(w, s, 1, n);
      assert forall i :: 0 <= i < k ==> a.items[i] == a.items[..k][i] == s.items[i];
      e := PlayRegisters(w, a, names);
    }
  }

  /** Publishing until the first `k` items have these counts. */
  lemma {:induction false} PlayCounts(w: World, s: State, names: seq<Name>, from: seq<nat>, to: seq<nat>, k: nat)
    returns (e: State)
    requires Can(w, s) && AllParse(w, names) && Unblocked(s.clients) && Shelves(s, names, from)
    requires |from| == |to| && k <= |to| && forall i :: 0 <= i < |to| ==> from[i] <= to[i]
    ensures Can(w, e) && Shelves(e, names, to[..k] + from[k..]) && e.clients == s.clients
    decreases k
  {
    if k == 0 {
      e := s;
      assert to[..0] + from[0..] == from;
    } else {
      var a := PlayCounts(w, s, names, from, to, k - 1);
      var i, mid := k - 1, to[..k - 1] + from[k - 1..];
      assert mid[i] == from[i] && CanParse(w, names[i]);
      var src, v :| Publishable(w, names[i], src, v);
      var more;
      e, more := PlayMany(w, a, 1, names[i], i, a.items[i].values, src, v, to[i] - from[i]);
      NextCounts(from, to, k);
      OneMoreCount(a, e, names, mid, i, to[i], more);
    }
  }

  lemma NextCounts(from: seq<nat>, to: seq<nat>, k: nat)
    requires 0 < k <= |from| == |to|
    ensures to[..k] + from[k..] == (to[..k - 1] + from[k - 1..])[k - 1 := to[k - 1]]
  {}

  lemma OneMoreCount(s: State, e: State, names: seq<Name>, counts: seq<nat>, i: nat, count: nat, values: seq<Bytes>)
    requires Shelves(s, names, counts) && i < |names| && Shelf(e, names[i], i, values) && |values| == count
    requires OthersSame(s, e, i)
    ensures Shelves(e, names, counts[i := count])
  {
    forall x | 0 <= x < |names|
      ensures e.items[x].name == names[x] && e.items[x].parser && |e.items[x].values| == counts[i := count][x]
    {
      if x != i { assert e.items[x] == s.items[x]; }
    }
  }
}
