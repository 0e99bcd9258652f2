/** Where the guarantees end: runs that reach the limits of versions and claims. */
module Extremes {
  import opened Base
  import opened Machine
  import opened Invariant
  import opened Growth
  import opened Clients
  import opened Adoption
  import opened Scenarios

  function Start(client: Client): State {
    State([], None, map[], 0, multiset{}, [Idle, Idle], [client, Plain], 0)
  }

  /** From the start: register the item and publish `k` values. */
  lemma PlayFirst(w: World, n: Name, src: Bytes, v: Bytes, client: Client, k: nat)
    returns (s: State, values: seq<Bytes>)
    requires Publishable(w, n, src, v) && Fresh(client)
    ensures Can(w, s) && Shelf(s, n, 0, values) && |values| == k && s.clients == [client, Plain]
  {
    var z := Start(client);
    CanStart(w, z);
    var a := PlayNewRegister(w, z, 1, n);
    s, values := PlayMany(w, a, 1, n, 0, [], src, v, k);
  }

  // ----- a consumer that sleeps through 2^32 updates -----------------------------------

  /** A consumer of these items is blocked and their setters are quiet; it has read, and its
      handlers have been given, value number ms[i] of ks[i]. */
  predicate SleepsAt(s: State, t: Tid, names: seq<Name>, keeps: seq<bool>, ms: seq<nat>, ks: seq<nat>) {
    t < |s.clients| && s.clients[t].Loop? && s.clients[t].lpc == Blocked({}) &&
    |s.clients[t].watch| == |names| == |keeps| == |ms| == |ks| &&
    forall i :: 0 <= i < |names| ==> SlotSleeps(s, s.clients[t].watch[i], names[i], keeps[i], ms[i], ks[i])
  }

  predicate SlotSleeps(s: State, wt: Watch, n: Name, keeps: bool, m: nat, k: nat) {
    wt.cap == Sealed(ReadKey, n) && wt.keeps == keeps && wt.futex.Some? && wt.futex.value < |s.items| &&
    !Notifying(s, wt.futex.value) && wt.seen == m == wt.delivered && (keeps ==> wt.kept == m) &&
    |s.items[wt.futex.value].values| == k
  }

  function Reader(n: Name, keeps: bool): Watch {
    Watch(Sealed(ReadKey, n), keeps, 0, None, None, 0, 0, 0, false, true)
  }

  /** The published object is there to be claimed. */
  lemma ShelfLive(w: World, s: State, n: Name, id: Id, values: seq<Bytes>)
    requires Inv(w, s) && Shelf(s, n, id, values)
    ensures s.items[id].version == |values| % U32 && (s.items[id].data.Some? <==> values != [])
    ensures s.items[id].data.Some? ==> s.items[id].data.value in s.heap
    ensures FindItem(s.items, n) == Some(id)
  {
    assert ItemOk(w, s, id);
    FindAt(s, id);
  }

  /** Slot `i`, of item `id`, once read and handled. */
  predicate HasRead(wt: Watch, n: Name, keeps: bool, id: Id, m: nat) {
    wt.cap == Sealed(ReadKey, n) && wt.keeps == keeps && wt.version == m % U32 && wt.futex == Some(id) &&
    wt.seen == m == wt.delivered && (keeps ==> wt.kept == m)
  }

  /** Thread 0 is at `pc` of its loop over `watch`; nothing else differs from `z`. */
  predicate AtSlot(z: State, s: State, watch: seq<Watch>, pc: LoopPc) {
    |z.clients| > 0 && |z.calls| == |z.clients| && z.calls[0].Idle? && s.calls == z.calls && s.items == z.items &&
    s.listLock == z.listLock && s.clients == z.clients[0 := Loop(watch, pc)]
  }

  lemma PlayAsk(w: World, s: State, watch: seq<Watch>, i: nat, fired: seq<bool>)
    requires Can(w, s) && At(s, 0, Idle) && s.clients[0] == Loop(watch, Scan(i, fired))
    requires i < |watch| == |fired| && fired[i]
    ensures Can(w, Goto(Become(s, 0, Loop(watch, Await(i, fired))), 0, Called(Get(watch[i].cap))))
  {
    CanStep(w, s, LoopIt(0, Go));
  }

  /** The answer is recorded; if there is a value, it is claimed and the handler called. */
  lemma PlayDeliver(w: World, z: State, s: State, watch: seq<Watch>, i: nat, fired: seq<bool>, n: Name, r: Reply)
    returns (e: State, wt: Watch)
    requires Can(w, s) && i < |watch| == |fired| && watch[i] == Reader(n, watch[i].keeps) && r.Found?
    requires At(s, 0, Returned(Get(watch[i].cap), r)) && AtSlot(z, Goto(s, 0, Idle), watch, Await(i, fired))
    requires (r.data.Some? ==> r.data.value in s.heap) && (r.data.None? <==> r.count == 0)
    requires r.version == r.count % U32
    ensures Can(w, e) && AtSlot(z, e, watch[i := wt], Scan(i + 1, fired))
    ensures HasRead(wt, n, watch[i].keeps, r.id, r.count)
  {
    wt := ReadWatch(watch[i], r);
    CanStep(w, s, LoopIt(0, Go));
    var next := if r.data.None? then Scan(i + 1, fired) else Ephemeral(i, fired, r.data.value);
    var a := Become(Goto(s, 0, Idle), 0, Loop(watch[i := wt], next));
    assert LoopStep(s, 0, Go) == a;
    if r.data.None? {
      e := a;
    } else {
      e, wt := PlayHandle(w, z, a, watch[i := wt], i, fired, r.data.value);
      assert watch[i := ReadWatch(watch[i], r)][i := wt] == watch[i := wt];
    }
  }

  /** The ephemeral claim and the handler; one that keeps goes on to its handover. */
  lemma PlayHandle(w: World, z: State, s: State, watch: seq<Watch>, i: nat, fired: seq<bool>, o: Obj)
    returns (e: State, wt: Watch)
    requires Can(w, s) && i < |watch| == |fired| && o in s.heap && AtSlot(z, s, watch, Ephemeral(i, fired, o))
    ensures Can(w, e) && AtSlot(z, e, watch[i := wt], Scan(i + 1, fired))
    ensures wt.cap == watch[i].cap && wt.keeps == watch[i].keeps && wt.version == watch[i].version
    ensures wt.futex == watch[i].futex && wt.seen == watch[i].seen == wt.delivered && (wt.keeps ==> wt.kept == wt.seen)
  {
    wt := watch[i].(delivered := watch[i].seen);
    var a := Become(s, 0, Loop(watch[i := wt], Handling(i, fired, o)));
    CanStep(w, s, LoopIt(0, Go));
    assert LoopStep(s, 0, Go) == a;
    var next := if wt.keeps then Keeping(i, fired, o) else Scan(i + 1, fired);
    var b := Become(a, 0, Loop(watch[i := wt], next));
    CanStep(w, a, LoopIt(0, Go));
    assert LoopStep(a, 0, Go) == b;
    if wt.keeps {
      var wt1 := wt;
      e, wt := PlayKeep(w, z, b, watch[i := wt1], i, fired, o);
      assert watch[i := wt1][i := wt] == watch[i := wt];
    } else {
      e := b;
    }
  }

  /** A granted claim, the swap and the release. */
  lemma PlayKeep(w: World, z: State, s: State, watch: seq<Watch>, i: nat, fired: seq<bool>, o: Obj)
    returns (e: State, wt: Watch)
    requires Can(w, s) && i < |watch| == |fired| && o in s.heap && AtSlot(z, s, watch, Keeping(i, fired, o))
    ensures Can(w, e) && AtSlot(z, e, watch[i := wt], Scan(i + 1, fired))
    ensures wt == watch[i].(held := wt.held, kept := watch[i].seen, refused := false, sound := wt.sound)
  {
    var a := LoopStep(s, 0, Go);
    CanStep(w, s, LoopIt(0, Go));
    var wt1 := watch[i].(refused := false);
    assert a.clients[0] == Loop(watch[i := wt1], Swap(i, fired, o, true));
    e, wt := PlaySwap(w, z, a, watch[i := wt1], i, fired, o);
    assert watch[i := wt1][i := wt] == watch[i := wt];
  }

  lemma PlaySwap(w: World, z: State, s: State, watch: seq<Watch>, i: nat, fired: seq<bool>, o: Obj)
    returns (e: State, wt: Watch)
    requires Can(w, s) && i < |watch| == |fired| && AtSlot(z, s, watch, Swap(i, fired, o, true))
    ensures Can(w, e) && AtSlot(z, e, watch[i := wt], Scan(i + 1, fired))
    ensures wt == watch[i].(held := Some(o), kept := watch[i].seen, sound := wt.sound)
  {
    var wt1 := watch[i].(held := Some(o), kept := watch[i].seen, sound := true);
    var a := Become(s, 0, Loop(watch[i := wt1], Release(i, fired, watch[i].held, watch[i].sound)));
    assert LoopStep(s, 0, Go) == a;
    CanStep(w, s, LoopIt(0, Go));
    e := LoopStep(a, 0, Go);
    CanStep(w, a, LoopIt(0, Go));
    wt := wt1.(sound := StillSound(wt1, watch[i].held, watch[i].sound));
    assert watch[i := wt1][i := wt] == watch[i := wt];
  }

  /** One slot of the scan. */
  lemma PlayVisit(w: World, s: State, watch: seq<Watch>, i: nat, fired: seq<bool>, n: Name, values: seq<Bytes>)
    returns (e: State, wt: Watch)
    requires Can(w, s) && Shelf(s, n, i, values) && |s.clients| > 0 && s.clients[0] == Loop(watch, Scan(i, fired))
    requires i < |watch| == |fired| && fired[i] && watch[i] == Reader(n, watch[i].keeps)
    ensures Can(w, e) && AtSlot(s, e, watch[i := wt], Scan(i + 1, fired))
    ensures HasRead(wt, n, watch[i].keeps, i, |values|)
  {
    CanInv(w, s);
    ShelfLive(w, s, n, i, values);
    PlayAsk(w, s, watch, i, fired);
    var a := Goto(Become(s, 0, Loop(watch, Await(i, fired))), 0, Called(Get(watch[i].cap)));
    PlayWholeGet(w, a, 0, n, i);
    var r := Found(i, s.items[i].version, |values|, s.items[i].data);
    var b := Goto(a, 0, Returned(Get(watch[i].cap), r));
    assert Goto(b, 0, Idle).calls == s.calls;
    e, wt := PlayDeliver(w, s, b, watch, i, fired, n, r);
  }

  /** Slots before `i` have been read, the others not yet. */
  predicate ReadUpTo(watch: seq<Watch>, names: seq<Name>, keeps: seq<bool>, ms: seq<nat>, i: nat)
    requires |watch| == |names| == |keeps| == |ms|
  {
    forall x :: 0 <= x < |watch| ==>
      if x < i then HasRead(watch[x], names[x], keeps[x], x, ms[x]) else watch[x] == Reader(names[x], keeps[x])
  }

  /** A first scan reads every item of the list, whatever its length, and hands every value
      to its handler. */
  lemma {:induction false} PlayScan(w: World, s: State, names: seq<Name>, keeps: seq<bool>, ms: seq<nat>,
                                    watch: seq<Watch>, i: nat, fired: seq<bool>) returns (e: State, done: seq<Watch>)
    requires Can(w, s) && Shelves(s, names, ms) && |s.clients| > 0 && s.clients[0] == Loop(watch, Scan(i, fired))
    requires |watch| == |names| == |keeps| == |fired| && i <= |watch| && ReadUpTo(watch, names, keeps, ms, i)
    requires forall x :: 0 <= x < |fired| ==> fired[x]
    ensures |done| == |names| && ReadUpTo(done, names, keeps, ms, |names|)
    ensures Can(w, e) && Shelves(e, names, ms) && e.clients == s.clients[0 := Loop(done, Scan(|names|, fired))]
    decreases |watch| - i
  {
    if i == |watch| {
      e, done := s, watch;
    } else {
      var a, wt := PlayVisit(w, s, watch, i, fired, names[i], s.items[i].values);
      e, done := PlayScan(w, a, names, keeps, ms, watch[i := wt], i + 1, fired);
    }
  }

  /** With the recorded versions on all futexes, the wait blocks. */
  lemma PlayWait(w: World, s: State, watch: seq<Watch>, fired: seq<bool>)
    requires Can(w, s) && At(s, 0, Idle) && s.clients[0] == Loop(watch, Scan(|watch|, fired)) && |fired| == |watch|
    requires forall i :: 0 <= i < |watch| ==>
      watch[i].futex.Some? && watch[i].futex.value < |s.items| &&
      s.items[watch[i].futex.value].version == watch[i].version
    ensures Can(w, Become(s, 0, Loop(watch, Blocked({}))))
  {
    CanStep(w, s, LoopIt(0, Go));
    assert Futexes(s, watch) && true !in Moved(s, watch);
    assert LoopStep(s, 0, Go) == Become(s, 0, Loop(watch, Blocked({})));
  }

  predicate Agree(ms: seq<nat>, ks: seq<nat>)
    requires |ms| == |ks|
  {
    forall i :: 0 <= i < |ms| ==> ms[i] <= ks[i] && ms[i] % U32 == ks[i] % U32
  }

  /** There is a run in which a consumer of any list of items is blocked with quiet setters,
      having read, and been given, ms[i] of ks[i] values, exactly when for every item the two
      numbers agree modulo 2^32. */
  lemma SleepsExactly(w: World, names: seq<Name>, keeps: seq<bool>, ms: seq<nat>, ks: seq<nat>)
    requires AllParse(w, names) && |names| == |keeps| == |ms| == |ks|
    ensures (exists s, t: Tid :: Can(w, s) && SleepsAt(s, t, names, keeps, ms, ks)) <==> Agree(ms, ks)
  {
    if s, t: Tid :| Can(w, s) && SleepsAt(s, t, names, keeps, ms, ks) {
      CanInv(w, s);
      forall i | 0 <= i < |ms| ensures ms[i] <= ks[i] && ms[i] % U32 == ks[i] % U32 {
        SlotAgrees(w, s, t, i, names[i], keeps[i], ms[i], ks[i]);
      }
    }
    if Agree(ms, ks) { var s := PlaySleep(w, names, keeps, ms, ks); }
  }

  lemma SlotAgrees(w: World, s: State, t: Tid, i: nat, n: Name, keeps: bool, m: nat, k: nat)
    requires Inv(w, s) && t < |s.clients| && s.clients[t].Loop? && s.clients[t].lpc == Blocked({})
    requires i < |s.clients[t].watch| && SlotSleeps(s, s.clients[t].watch[i], n, keeps, m, k)
    ensures m <= k && m % U32 == k % U32
  {
    var wt := s.clients[t].watch[i];
    assert ClientOk(w, s, t) && WatchOk(w, s, wt) && Armed(s, wt, {}) && ItemOk(w, s, wt.futex.value);
  }

  lemma PlaySleep(w: World, names: seq<Name>, keeps: seq<bool>, ms: seq<nat>, ks: seq<nat>) returns (s: State)
    requires AllParse(w, names) && |names| == |keeps| == |ms| == |ks| && Agree(ms, ks)
    ensures Can(w, s) && SleepsAt(s, 0, names, keeps, ms, ks)
  {
    var watch := seq(|names|, i requires 0 <= i < |names| => Reader(names[i], keeps[i]));
    var fired := seq(|names|, _ => true);
    var z := Start(Loop(watch, Scan(0, fired)));
    assert fired == seq(|watch|, _ => true);
    CanStart(w, z);
    var a := PlayRegisters(w, z, names);
    var b := PlayCounts(w, a, names, seq(|names|, _ => 0), ms, |names|);
    assert ms[..|names|] + seq(|names|, _ => 0)[|names|..] == ms;
    var c, done := PlayScan(w, b, names, keeps, ms, watch, 0, fired);
    var d := PlayCounts(w, c, names, ms, ks, |names|);
    assert ks[..|names|] + ms[|names|..] == ks;
    s := PlayBlock(w, d, names, keeps, ms, ks, done, fired);
  }

  lemma PlayBlock(w: World, s: State, names: seq<Name>, keeps: seq<bool>, ms: seq<nat>, ks: seq<nat>,
                  watch: seq<Watch>, fired: seq<bool>) returns (e: State)
    requires Can(w, s) && |names| == |keeps| == |ms| == |ks| && Shelves(s, names, ks) && Agree(ms, ks)
    requires |s.clients| > 0 && s.clients[0] == Loop(watch, Scan(|names|, fired)) && |watch| == |names| == |fired|
    requires ReadUpTo(watch, names, keeps, ms, |names|)
    ensures Can(w, e) && SleepsAt(e, 0, names, keeps, ms, ks)
  {
    CanInv(w, s);
    forall i | 0 <= i < |watch| ensures s.items[i].version == watch[i].version { assert ItemOk(w, s, i); }
    PlayWait(w, s, watch, fired);
    e := Become(s, 0, Loop(watch, Blocked({})));
  }

  // ----- an update_status that loses a value ---------------------------------------------

  function Taker(n: Name, version: nat, config: Option<Obj>, seen: nat, taken: nat, refused: bool): Client {
    Provider(Sealed(ReadKey, n), version, config, seen, taken, refused, Rest)
  }

  /** A provider of `n` is between calls and everybody else is quiet; it has recorded the
      version of the last of `b` values, but the claim failed and it keeps number `a`. */
  predicate StaleAt(s: State, t: Tid, n: Name, a: nat, b: nat) {
    Quiet(s) && t < |s.clients| && s.clients[t].Provider? && s.clients[t].spc.Rest? &&
    s.clients[t].cap == Sealed(ReadKey, n) && s.clients[t].refused &&
    s.clients[t].taken == a && s.clients[t].seen == b && |Values(s, n)| == b
  }

  /** The call, up to the claim. */
  lemma PlayNotice(w: World, s: State, n: Name, values: seq<Bytes>) returns (e: State, o: Obj)
    requires Can(w, s) && Shelf(s, n, 0, values) && |s.clients| == 2 && s.clients[0].Provider?
    requires s.clients[0].spc.Rest? && s.clients[0].cap == Sealed(ReadKey, n)
    requires values != [] && |values| % U32 != s.clients[0].version
    ensures Can(w, e) && Shelf(e, n, 0, values) && o in e.heap
    ensures e.clients == s.clients[0 := s.clients[0].(version := |values| % U32, seen := |values|, spc := Secure(o))]
  {
    var c := s.clients[0];
    CanInv(w, s);
    ShelfLive(w, s, n, 0, values);
    o := s.items[0].data.value;
    CanStep(w, s, StatusIt(0, Go));
    var a := Goto(Become(s, 0, c.(spc := Fetch)), 0, Called(Get(c.cap)));
    assert StatusStep(s, 0, Go) == a;
    PlayWholeGet(w, a, 0, n, 0);
    var b := Goto(a, 0, Returned(Get(c.cap), Found(0, |values| % U32, |values|, Some(o))));
    CanStep(w, b, StatusIt(0, Go));
    e := StatusStep(b, 0, Go);
    assert e.calls == s.calls;
  }

  lemma PlayRefuse(w: World, s: State, n: Name, values: seq<Bytes>) returns (e: State)
    requires Can(w, s) && Shelf(s, n, 0, values) && |s.clients| == 2 && s.clients[0].Provider?
    requires s.clients[0].spc.Rest? && s.clients[0].cap == Sealed(ReadKey, n)
    requires values != [] && |values| % U32 != s.clients[0].version
    ensures Can(w, e) && Shelf(e, n, 0, values)
    ensures |e.clients| == 2 && e.clients[1] == s.clients[1]
    ensures var c := s.clients[0];
      |e.clients| == 2 && e.clients[0] == c.(version := |values| % U32, seen := |values|, refused := true)
  {
    var a, o := PlayNotice(w, s, n, values);
    CanStep(w, a, StatusIt(0, Fail));
    e := StatusStep(a, 0, Fail);
  }

  lemma PlayTake(w: World, s: State, n: Name, values: seq<Bytes>) returns (e: State)
    requires Can(w, s) && Shelf(s, n, 0, values) && |s.clients| == 2 && s.clients[0].Provider?
    requires s.clients[0].spc.Rest? && s.clients[0].cap == Sealed(ReadKey, n) && s.clients[0].config.None?
    requires values != [] && |values| % U32 != s.clients[0].version
    ensures Can(w, e) && Shelf(e, n, 0, values)
    ensures |e.clients| == 2 && e.clients[1] == s.clients[1]
    ensures e.clients[0].Provider? && e.clients[0].spc.Rest? && e.clients[0].cap == Sealed(ReadKey, n)
    ensures e.clients[0].version == |values| % U32 && e.clients[0].taken == |values|
  {
    var a, o := PlayNotice(w, s, n, values);
    CanStep(w, a, StatusIt(0, Go));
    var b := StatusStep(a, 0, Go);
    CanStep(w, b, StatusIt(0, Go));
    var c := StatusStep(b, 0, Go);
    CanStep(w, c, StatusIt(0, Go));
    e := StatusStep(c, 0, Go);
  }

  /** The run: an update_status that is refused changes nothing but the recorded version, so
      a wrapped version can be stepped around. */
  lemma PlayTo(w: World, n: Name, src: Bytes, v: Bytes, a: nat) returns (s: State, values: seq<Bytes>)
    requires Publishable(w, n, src, v)
    ensures Can(w, s) && Shelf(s, n, 0, values) && |values| == a && |s.clients| == 2 && s.clients[1].Plain?
    ensures s.clients[0].Provider? && s.clients[0].spc.Rest? && s.clients[0].cap == Sealed(ReadKey, n)
    ensures s.clients[0].version == a % U32 && s.clients[0].taken == a
  {
    var first := if a > 0 && a % U32 == 0 then 1 else a;
    s, values := PlayFirst(w, n, src, v, Taker(n, 0, None, 0, 0, false), first);
    if a == 0 { return; }
    if a % U32 == 0 {
      s := PlayRefuse(w, s, n, values);
      s, values := PlayMany(w, s, 1, n, 0, values, src, v, a - 1);
    }
    s := PlayTake(w, s, n, values);
  }

  lemma PlayStale(w: World, n: Name, src: Bytes, v: Bytes, a: nat, b: nat) returns (s: State)
    requires Publishable(w, n, src, v) && a < b
    ensures Can(w, s) && StaleAt(s, 0, n, a, b)
  {
    var x, values := PlayTo(w, n, src, v, a);
    if a % U32 == b % U32 {
      x, values := PlayMany(w, x, 1, n, 0, values, src, v, 1);
      x := PlayRefuse(w, x, n, values);
    }
    var y, more := PlayMany(w, x, 1, n, 0, values, src, v, b - |values|);
    s := PlayRefuse(w, y, n, more);
    CanInv(w, s);
    ValuesAt(s, 0);
  }

  /** The lost value: there is a run at whose end the provider keeps number a, although it has
      recorded the version of number b and nothing newer exists, exactly when a < b. */
  lemma StaleExactly(w: World, n: Name, src: Bytes, v: Bytes, a: nat, b: nat)
    requires Publishable(w, n, src, v)
    ensures (exists s, t: Tid :: Can(w, s) && StaleAt(s, t, n, a, b)) <==> a < b
  {
    if s, t: Tid :| Can(w, s) && StaleAt(s, t, n, a, b) {
      var tr :| Ends(w, tr, s);
      TakenExactly(w, tr, |tr| - 1, t);
    }
    if a < b { var s := PlayStale(w, n, src, v, a, b); }
  }
}
