/** Every step of every thread preserves the broker invariant. */
module Preservation {
  import opened Base
  import opened Machine
  import opened Invariant

  // ----- a thread moves on an item whose lock it has, takes or gives up ---------

  /** Only `t`, item `id` and objects of item `id` may differ between `s` and `s'`. */
  ghost predicate Within(w: World, s: State, s': State, t: Tid, id: Id)
    requires t < |s.calls| && id < |s.items|
  {
    |s'.calls| == |s.calls| && |s'.items| == |s.items| && s'.listLock == s.listLock &&
    (forall u :: 0 <= u < |s.calls| && u != t ==> s'.calls[u] == s.calls[u]) &&
    (forall j :: 0 <= j < |s.items| && j != id ==> s'.items[j] == s.items[j]) &&
    Settles(w, s.items[id], s'.items[id]) &&
    (forall o :: o in s.heap && s.heap[o].item != id ==> o in s'.heap && s'.heap[o] == s.heap[o])
  }

  lemma OwnerStep(w: World, s: State, s': State, t: Tid, id: Id)
    requires BrokerInv(w, s) && t < |s.calls| && id < |s.items| && Within(w, s, s', t, id)
    requires s.items[id].lock == None || s.items[id].lock == Some(t)
    requires s.calls[t].Working? && s.calls[t].id == id
    requires ThreadOk(w, s', t) && ItemOk(w, s', id) && LockOk(s', id) && HeapOk(s')
    ensures BrokerInv(w, s')
  {
    forall u | 0 <= u < |s'.calls| ensures ThreadOk(w, s', u) {
      if u != t {
        assert Rely(w, s, s', u);
        ThreadStable(w, s, s', u);
      }
    }
    forall j | 0 <= j < |s'.items| ensures ItemOk(w, s', j) && LockOk(s', j) {
      if j != id { OtherItem(w, s, s', t, id, j); }
    }
  }

  lemma OtherItem(w: World, s: State, s': State, t: Tid, id: Id, j: Id)
    requires BrokerInv(w, s) && t < |s.calls| && id < |s.items| && j < |s.items| && j != id
    requires Within(w, s, s', t, id) && s.calls[t].Working? && s.calls[t].id == id
    ensures ItemOk(w, s', j) && LockOk(s', j)
  {
    assert ItemOk(w, s, j) && LockOk(s, j);
    assert HolderCall(s', j) == HolderCall(s, j);
    if Current(s, j).Some? { CurrentClaimed(w, s, j); }
  }

  /** The account is unchanged when neither claims nor what is held change. */
  lemma HeapSame(s: State, s': State)
    requires HeapOk(s) && s'.claims == s.claims && s'.heap.Keys == s.heap.Keys && s'.nextObj == s.nextObj
    requires forall o :: o in s.heap ==> Held(s', o) == Held(s, o)
    ensures HeapOk(s')
  {
    forall o ensures s'.claims[Claim(Broker, o)] == if Held(s', o) then 1 else 0 {
      assert s.claims[Claim(Broker, o)] == if Held(s, o) then 1 else 0;
    }
  }

  /** A thread that keeps its lock, its buffers and the item as they are. */
  lemma MoveStep(w: World, s: State, t: Tid, pc: WorkPc)
    requires BrokerInv(w, s) && t < |s.calls| && s.calls[t].Working? && HoldsItem(s.calls[t])
    requires var c := Working(s.calls[t].op, s.calls[t].id, pc);
      HoldsItem(c) && InFlight(c) == InFlight(s.calls[t]) && !pc.Bump? && !s.calls[t].pc.Bump? &&
      ThreadOk(w, Goto(s, t, c), t)
    ensures BrokerInv(w, Goto(s, t, Working(s.calls[t].op, s.calls[t].id, pc)))
  {
    var id := s.calls[t].id;
    var s' := Goto(s, t, Working(s.calls[t].op, id, pc));
    assert ThreadOk(w, s, t) && ItemOk(w, s, id) && LockOk(s, id);
    forall j | 0 <= j < |s.items| ensures InFlight(HolderCall(s', j)) == InFlight(HolderCall(s, j)) {
      assert LockOk(s, j);
    }
    HeapSame(s, s');
    OwnerStep(w, s, s', t, id);
  }

  /** Nothing in the invariant concerns the clients or the clock. */
  lemma Unrelated(w: World, s: State, clients: seq<Client>, now: nat)
    requires BrokerInv(w, s)
    ensures BrokerInv(w, s.(clients := clients, now := now))
  {
    var s' := s.(clients := clients, now := now);
    forall u | 0 <= u < |s.calls| ensures ThreadOk(w, s', u) { assert ThreadOk(w, s, u); }
    forall j | 0 <= j < |s.items| ensures ItemOk(w, s', j) && LockOk(s', j) {
      assert ItemOk(w, s, j) && LockOk(s, j) && HolderCall(s', j) == HolderCall(s, j);
    }
    HeapSame(s, s');
  }

  // ----- set_config ------------------------------------------------------------

  lemma SetCheckParser(w: World, s: State, t: Tid, ch: Choice)
    requires BrokerInv(w, s) && SetEnabled(w, s, t, ch) && s.calls[t].pc.CheckParser?
    ensures BrokerInv(w, SetStep(w, s, t, ch))
  {
    assert ThreadOk(w, s, t);
    MoveStep(w, s, t, if s.items[s.calls[t].id].parser then ReadTick else Exit(ENODEV));
  }

  lemma SetReadTick(w: World, s: State, t: Tid, ch: Choice)
    requires BrokerInv(w, s) && SetEnabled(w, s, t, ch) && s.calls[t].pc.ReadTick?
    ensures BrokerInv(w, SetStep(w, s, t, ch))
  {
    assert ThreadOk(w, s, t);
    MoveStep(w, s, t, CheckRate(s.now));
  }

  lemma SetCheckRate(w: World, s: State, t: Tid, ch: Choice)
    requires BrokerInv(w, s) && SetEnabled(w, s, t, ch) && s.calls[t].pc.CheckRate?
    ensures BrokerInv(w, SetStep(w, s, t, ch))
  {
    var s', id := SetStep(w, s, t, ch), s.calls[t].id;
    assert ThreadOk(w, s, t) && ItemOk(w, s, id) && LockOk(s, id);
    if s'.calls[t].pc.Exit? {
      MoveStep(w, s, t, Exit(EBUSY));
    } else {
      HeldAlike(w, s, s', t, id);
      HeapSame(s, s');
      OwnerStep(w, s, s', t, id);
    }
  }

  /** What is held depends on the published object and the setter's buffer only. */
  lemma HeldAlike(w: World, s: State, s': State, t: Tid, id: Id)
    requires BrokerInv(w, s) && t < |s.calls| && id < |s.items| && Within(w, s, s', t, id)
    requires HoldsItem(s.calls[t]) && s.calls[t].id == id && s.calls[t].Working?
    requires s'.heap.Keys == s.heap.Keys && forall o :: o in s.heap ==> s'.heap[o].item == s.heap[o].item
    requires s'.items[id].lock == None || s'.items[id].lock == Some(t)
    requires forall o :: s.items[id].data == Some(o) || InFlight(s.calls[t]) == Some(o) <==>
                         s'.items[id].data == Some(o) || InFlight(HolderCall(s', id)) == Some(o)
    ensures forall o :: o in s.heap ==> Held(s', o) == Held(s, o)
  {
    assert ThreadOk(w, s, t);
    forall o | o in s.heap && s.heap[o].item < |s.items| ensures Held(s', o) == Held(s, o) {
      assert LockOk(s, s.heap[o].item);
    }
  }

  lemma SetAllocate(w: World, s: State, t: Tid, ch: Choice)
    requires BrokerInv(w, s) && SetEnabled(w, s, t, ch) && s.calls[t].pc.Allocate?
    ensures BrokerInv(w, SetStep(w, s, t, ch))
  {
    assert ThreadOk(w, s, t);
    if ch.Fail? { MoveStep(w, s, t, Exit(ENOMEM)); } else { NewBuffer(w, s, t, ch); }
  }

  lemma NewBuffer(w: World, s: State, t: Tid, ch: Choice)
    requires BrokerInv(w, s) && SetEnabled(w, s, t, ch) && s.calls[t].pc.Allocate? && !ch.Fail?
    ensures BrokerInv(w, SetStep(w, s, t, ch))
  {
    var s', id := SetStep(w, s, t, ch), s.calls[t].id;
    assert ThreadOk(w, s, t) && ItemOk(w, s, id) && LockOk(s, id);
    assert HeapOk(s') by { NewHeap(w, s, t, s'); }
    OwnerStep(w, s, s', t, id);
  }

  lemma NewHeap(w: World, s: State, t: Tid, s': State)
    requires BrokerInv(w, s) && SetEnabled(w, s, t, Go) && s.calls[t].pc.Allocate? && s' == SetStep(w, s, t, Go)
    ensures HeapOk(s')
  {
    var id := s.calls[t].id;
    assert ThreadOk(w, s, t) && LockOk(s, id);
    forall o ensures s'.claims[Claim(Broker, o)] == if Held(s', o) then 1 else 0 {
      assert s.claims[Claim(Broker, o)] == if Held(s, o) then 1 else 0;
      if o in s.heap && s.heap[o].item < |s.items| { assert LockOk(s, s.heap[o].item); }
    }
  }

  lemma SetParsing(w: World, s: State, t: Tid, ch: Choice)
    requires BrokerInv(w, s) && SetEnabled(w, s, t, ch) && s.calls[t].pc.Parsing?
    ensures BrokerInv(w, SetStep(w, s, t, ch))
  {
    assert ThreadOk(w, s, t);
    match ch
    case Write(b) => ParserWrites(w, s, t, b);
    case Go => ParserAccepts(w, s, t);
    case _ => MoveStep(w, s, t, Discard(s.calls[t].pc.obj));
  }

  lemma ParserWrites(w: World, s: State, t: Tid, b: Bytes)
    requires BrokerInv(w, s) && SetEnabled(w, s, t, Write(b)) && s.calls[t].pc.Parsing?
    ensures BrokerInv(w, SetStep(w, s, t, Write(b)))
  {
    var s', id := SetStep(w, s, t, Write(b)), s.calls[t].id;
    assert ThreadOk(w, s, t) && ItemOk(w, s, id) && LockOk(s, id);
    HeldAlike(w, s, s', t, id);
    HeapSame(s, s');
    OwnerStep(w, s, s', t, id);
  }

  lemma ParserAccepts(w: World, s: State, t: Tid)
    requires BrokerInv(w, s) && SetEnabled(w, s, t, Go) && s.calls[t].pc.Parsing?
    ensures BrokerInv(w, SetStep(w, s, t, Go))
  {
    var s', id := SetStep(w, s, t, Go), s.calls[t].id;
    assert ThreadOk(w, s, t) && ItemOk(w, s, id) && LockOk(s, id);
    assert Parsed(w, s.items[id].name, s.heap[s.calls[t].pc.obj].bytes);
    HeldAlike(w, s, s', t, id);
    HeapSame(s, s');
    OwnerStep(w, s, s', t, id);
  }

  lemma SetDiscard(w: World, s: State, t: Tid, ch: Choice)
    requires BrokerInv(w, s) && SetEnabled(w, s, t, ch) && s.calls[t].pc.Discard?
    ensures BrokerInv(w, SetStep(w, s, t, ch))
  {
    assert ThreadOk(w, s, t);
    FreeStep(w, s, t, s.calls[t].pc.obj, EINVAL);
  }

  /** Freeing the buffer in flight. */
  lemma FreeStep(w: World, s: State, t: Tid, o: Obj, code: Code)
    requires BrokerInv(w, s) && t < |s.calls| && s.calls[t].Working? && s.calls[t].id < |s.items|
    requires s.calls[t].pc.Discard? || s.calls[t].pc.FreeOld?
    requires InFlight(s.calls[t]) == Some(o)
    ensures BrokerInv(w, Goto(s, t, Working(s.calls[t].op, s.calls[t].id, Exit(code))).(
                           claims := s.claims - multiset{Claim(Broker, o)}))
  {
    var id := s.calls[t].id;
    var s' := Goto(s, t, Working(s.calls[t].op, id, Exit(code))).(claims := s.claims - multiset{Claim(Broker, o)});
    assert ThreadOk(w, s, t) && ItemOk(w, s, id) && LockOk(s, id);
    FreeHeap(w, s, t, s', o);
    OwnerStep(w, s, s', t, id);
  }

  lemma FreeHeap(w: World, s: State, t: Tid, s': State, o: Obj)
    requires BrokerInv(w, s) && t < |s.calls| && s.calls[t].Working? && s.calls[t].id < |s.items|
    requires InFlight(s.calls[t]) == Some(o) && s.items[s.calls[t].id].data != Some(o)
    requires s'.claims == s.claims - multiset{Claim(Broker, o)} && s'.heap == s.heap && s'.nextObj == s.nextObj
    requires s'.items == s.items && |s'.calls| == |s.calls| && InFlight(s'.calls[t]).None?
    requires forall u :: 0 <= u < |s.calls| && u != t ==> s'.calls[u] == s.calls[u]
    ensures HeapOk(s')
  {
    InFlightClaimed(w, s, t);
    assert ThreadOk(w, s, t);
    forall p ensures s'.claims[Claim(Broker, p)] == if Held(s', p) then 1 else 0 {
      assert s.claims[Claim(Broker, p)] == if Held(s, p) then 1 else 0;
      if p in s.heap && s.heap[p].item < |s.items| { assert LockOk(s, s.heap[p].item); }
    }
  }

  lemma SetStore(w: World, s: State, t: Tid, ch: Choice)
    requires BrokerInv(w, s) && SetEnabled(w, s, t, ch) && s.calls[t].pc.Store?
    ensures BrokerInv(w, SetStep(w, s, t, ch))
  {
    var s', id := SetStep(w, s, t, ch), s.calls[t].id;
    assert ThreadOk(w, s, t) && ItemOk(w, s, id) && LockOk(s, id);
    HeldAlike(w, s, s', t, id);
    HeapSame(s, s');
    OwnerStep(w, s, s', t, id);
  }

  lemma SetBump(w: World, s: State, t: Tid, ch: Choice)
    requires BrokerInv(w, s) && SetEnabled(w, s, t, ch) && s.calls[t].pc.Bump?
    ensures BrokerInv(w, SetStep(w, s, t, ch))
  {
    var s', id := SetStep(w, s, t, ch), s.calls[t].id;
    assert ThreadOk(w, s, t) && LockOk(s, id);
    assert ThreadOk(w, s', t) by { assert ItemOk(w, s, id); }
    BumpedItem(w, s, t, ch);
    HeldAlike(w, s, s', t, id);
    HeapSame(s, s');
    OwnerStep(w, s, s', t, id);
  }

  lemma BumpedItem(w: World, s: State, t: Tid, ch: Choice)
    requires BrokerInv(w, s) && SetEnabled(w, s, t, ch) && s.calls[t].pc.Bump?
    ensures ItemOk(w, SetStep(w, s, t, ch), s.calls[t].id)
  {
    var id, o := s.calls[t].id, s.calls[t].pc.obj;
    assert ThreadOk(w, s, t) && ItemOk(w, s, id) && LockOk(s, id);
    OneMoreParsed(w, s.items[id].name, s.items[id].values, s.heap[o].bytes, s.calls[t].op.src);
    assert (s.items[id].values + [s.heap[o].bytes])[|s.items[id].values|] == s.heap[o].bytes;
    CountBumped(|s.items[id].values|);
  }

  lemma OneMoreParsed(w: World, n: Name, values: seq<Bytes>, v: Bytes, src: Bytes)
    requires forall k :: 0 <= k < |values| ==> Parsed(w, n, values[k])
    requires n in w.tokens && |v| == w.tokens[n].size && w.tokens[n].parses(src, v)
    ensures forall k :: 0 <= k < |values| + 1 ==> Parsed(w, n, (values + [v])[k])
  {
    assert Parsed(w, n, v);
  }

  lemma SetNotify(w: World, s: State, t: Tid, ch: Choice)
    requires BrokerInv(w, s) && SetEnabled(w, s, t, ch) && s.calls[t].pc.Notify?
    ensures BrokerInv(w, SetStep(w, s, t, ch))
  {
    assert ThreadOk(w, s, t);
    MoveStep(w, s, t, FreeOld(s.calls[t].pc.prev));
    Unrelated(w, Goto(s, t, Working(s.calls[t].op, s.calls[t].id, FreeOld(s.calls[t].pc.prev))),
              NotifyAll(s.clients, s.calls[t].id), s.now);
  }

  lemma SetFreeOld(w: World, s: State, t: Tid, ch: Choice)
    requires BrokerInv(w, s) && SetEnabled(w, s, t, ch) && s.calls[t].pc.FreeOld?
    ensures BrokerInv(w, SetStep(w, s, t, ch))
  {
    assert ThreadOk(w, s, t);
    if s.calls[t].pc.prev.Some? {
      FreeStep(w, s, t, s.calls[t].pc.prev.value, OK);
    } else {
      MoveStep(w, s, t, Exit(OK));
    }
  }

  /** Giving the item lock back, in either call. */
  lemma UnlockStep(w: World, s: State, t: Tid, r: Reply)
    requires BrokerInv(w, s) && t < |s.calls| && HoldsItem(s.calls[t]) && InFlight(s.calls[t]).None?
    requires s.calls[t].id < |s.items| && !s.calls[t].pc.Bump?
    ensures var id := s.calls[t].id;
      BrokerInv(w, Goto(Put(s, id, s.items[id].(lock := None)), t, Returned(s.calls[t].op, r)))
  {
    var id := s.calls[t].id;
    var s' := Goto(Put(s, id, s.items[id].(lock := None)), t, Returned(s.calls[t].op, r));
    assert ThreadOk(w, s, t) && ItemOk(w, s, id) && LockOk(s, id);
    HeldAlike(w, s, s', t, id);
    HeapSame(s, s');
    OwnerStep(w, s, s', t, id);
  }

  lemma SetExit(w: World, s: State, t: Tid, ch: Choice)
    requires BrokerInv(w, s) && SetEnabled(w, s, t, ch) && s.calls[t].pc.Exit?
    ensures BrokerInv(w, SetStep(w, s, t, ch))
  {
    UnlockStep(w, s, t, Status(s.calls[t].pc.code));
  }

  lemma SetKeeps(w: World, s: State, t: Tid, ch: Choice)
    requires BrokerInv(w, s) && SetEnabled(w, s, t, ch)
    ensures BrokerInv(w, SetStep(w, s, t, ch))
  {
    match s.calls[t].pc
    case CheckParser => SetCheckParser(w, s, t, ch);
    case ReadTick => SetReadTick(w, s, t, ch);
    case CheckRate(_) => SetCheckRate(w, s, t, ch);
    case Allocate => SetAllocate(w, s, t, ch);
    case Parsing(_) => SetParsing(w, s, t, ch);
    case Discard(_) => SetDiscard(w, s, t, ch);
    case Store(_) => SetStore(w, s, t, ch);
    case Bump(_, _) => SetBump(w, s, t, ch);
    case Notify(_) => SetNotify(w, s, t, ch);
    case FreeOld(_) => SetFreeOld(w, s, t, ch);
    case Exit(_) => SetExit(w, s, t, ch);
    case _ =>
  }

  // ----- get_config, locks, set_parser -------------------------------------------

  lemma LockKeeps(w: World, s: State, t: Tid)
    requires BrokerInv(w, s) && LockEnabled(s, t)
    ensures BrokerInv(w, LockStep(s, t))
  {
    var s', id := LockStep(s, t), s.calls[t].id;
    assert ThreadOk(w, s, t) && ItemOk(w, s, id);
    forall o | o in s.heap && s.heap[o].item < |s.items| ensures Held(s', o) == Held(s, o) {
      assert LockOk(s, s.heap[o].item);
    }
    HeapSame(s, s');
    OwnerStep(w, s, s', t, id);
  }

  lemma GetKeeps(w: World, s: State, t: Tid)
    requires BrokerInv(w, s) && GetEnabled(s, t)
    ensures BrokerInv(w, GetStep(s, t))
  {
    var id := s.calls[t].id;
    assert ThreadOk(w, s, t);
    match s.calls[t].pc
    case ReadVersion => MoveStep(w, s, t, ReadData(s.items[id].version, |s.items[id].values|));
    case ReadData(v, n) => MoveStep(w, s, t, Leave(v, n, s.items[id].data));
    case Leave(v, n, d) => UnlockStep(w, s, t, Found(id, v, n, d));
  }

  // ----- threads that have no item lock --------------------------------------------

  /** Only `t` moved, without an item lock; items may be registered or appended. */
  ghost predicate Outside(w: World, s: State, s': State, t: Tid)
    requires t < |s.calls|
  {
    |s'.calls| == |s.calls| && !HoldsItem(s.calls[t]) && !HoldsItem(s'.calls[t]) &&
    (forall u :: 0 <= u < |s.calls| && u != t ==> s'.calls[u] == s.calls[u]) &&
    |s.items| <= |s'.items| &&
    (forall j :: 0 <= j < |s.items| ==>
      Same(s.items[j], s'.items[j]) && Settles(w, s.items[j], s'.items[j]) &&
      (s'.items[j] == s.items[j] || !s'.items[j].parser || Registered(w, s'.items[j]))) &&
    (forall j :: |s.items| <= j < |s'.items| ==> s'.items[j] == NewItem(s'.items[j].name)) &&
    (s.listLock.Some? && s.listLock.value != t ==> s'.listLock == s.listLock && |s'.items| == |s.items|) &&
    s'.heap == s.heap && s'.nextObj == s.nextObj &&
    (forall c :: c in s'.claims ==> c.obj in s.heap) &&
    (forall o :: s'.claims[Claim(Broker, o)] == s.claims[Claim(Broker, o)])
  }

  lemma OutsideStep(w: World, s: State, s': State, t: Tid)
    requires BrokerInv(w, s) && t < |s.calls| && Outside(w, s, s', t) && ThreadOk(w, s', t) && Names(s')
    ensures BrokerInv(w, s')
  {
    forall u | 0 <= u < |s'.calls| ensures ThreadOk(w, s', u) {
      if u != t {
        assert Rely(w, s, s', u);
        ThreadStable(w, s, s', u);
      }
    }
    forall j | 0 <= j < |s'.items| ensures ItemOk(w, s', j) && LockOk(s', j) { OutsideItem(w, s, s', t, j); }
    OutsideHeap(w, s, s', t);
  }

  lemma OutsideItem(w: World, s: State, s': State, t: Tid, j: Id)
    requires BrokerInv(w, s) && t < |s.calls| && Outside(w, s, s', t) && j < |s'.items|
    ensures ItemOk(w, s', j) && LockOk(s', j)
  {
    if j < |s.items| {
      assert Same(s.items[j], s'.items[j]);
      assert ItemOk(w, s, j) && LockOk(s, j);
      assert HolderCall(s', j) == HolderCall(s, j);
    }
  }

  lemma OutsideHeap(w: World, s: State, s': State, t: Tid)
    requires BrokerInv(w, s) && t < |s.calls| && Outside(w, s, s', t)
    ensures HeapOk(s')
  {
    forall o ensures Held(s', o) == Held(s, o) {
      if o in s.heap {
        var j := s.heap[o].item;
        if j < |s.items| {
          assert LockOk(s, j) && Same(s.items[j], s'.items[j]);
        } else if j < |s'.items| {
          assert s'.items[j] == NewItem(s'.items[j].name);
        }
      }
    }
    forall o ensures s'.claims[Claim(Broker, o)] == if Held(s', o) then 1 else 0 {
      assert s.claims[Claim(Broker, o)] == if Held(s, o) then 1 else 0;
    }
  }

  lemma LinkOutside(w: World, s: State, t: Tid, ch: Choice)
    requires BrokerInv(w, s) && FindEnabled(s, t) && s.calls[t].fpc.Linking?
    ensures Outside(w, s, FindStep(s, t, ch), t) && Names(FindStep(s, t, ch))
  {
    assert ThreadOk(w, s, t);
  }

  lemma FindOutside(w: World, s: State, t: Tid, ch: Choice)
    requires BrokerInv(w, s) && FindEnabled(s, t)
    ensures Outside(w, s, FindStep(s, t, ch), t) && Names(FindStep(s, t, ch))
  {
    if s.calls[t].fpc.Linking? {
      LinkOutside(w, s, t, ch);
    } else {
      assert ThreadOk(w, s, t);
      assert FindStep(s, t, ch).items == s.items;
    }
  }

  lemma FindThread(w: World, s: State, t: Tid, ch: Choice)
    requires BrokerInv(w, s) && FindEnabled(s, t)
    ensures ThreadOk(w, FindStep(s, t, ch), t)
  {
    assert ThreadOk(w, s, t);
  }

  lemma FindKeeps(w: World, s: State, t: Tid, ch: Choice)
    requires BrokerInv(w, s) && FindEnabled(s, t)
    ensures BrokerInv(w, FindStep(s, t, ch))
  {
    FindOutside(w, s, t, ch);
    FindThread(w, s, t, ch);
    OutsideStep(w, s, FindStep(s, t, ch), t);
  }

  lemma UnsealKeeps(w: World, s: State, t: Tid)
    requires BrokerInv(w, s) && UnsealEnabled(s, t)
    ensures BrokerInv(w, UnsealStep(s, t))
  {
    assert ThreadOk(w, s, t);
    OutsideStep(w, s, UnsealStep(s, t), t);
  }

  lemma RegisterKeeps(w: World, s: State, t: Tid)
    requires BrokerInv(w, s) && RegisterEnabled(w, s, t)
    ensures BrokerInv(w, RegisterStep(w, s, t))
  {
    RegisterOutside(w, s, t);
    RegisterThread(w, s, t);
    OutsideStep(w, s, RegisterStep(w, s, t), t);
  }

  /** One of the three stores, by a thread without the item lock. */
  lemma FieldOutside(w: World, s: State, t: Tid, id: Id, it: Item, c: Call)
    requires BrokerInv(w, s) && t < |s.calls| && id < |s.items| && !HoldsItem(s.calls[t]) && !HoldsItem(c)
    requires Same(s.items[id], it) && Settles(w, s.items[id], it) && (it.parser ==> Registered(w, it))
    ensures Outside(w, s, Goto(Put(s, id, it), t, c), t) && Names(Goto(Put(s, id, it), t, c))
  {}

  lemma RegisterOutside(w: World, s: State, t: Tid)
    requires BrokerInv(w, s) && RegisterEnabled(w, s, t)
    ensures Outside(w, s, RegisterStep(w, s, t), t) && Names(RegisterStep(w, s, t))
  {
    var s', id := RegisterStep(w, s, t), s.calls[t].id;
    assert ThreadOk(w, s, t) && ItemOk(w, s, id);
    FieldOutside(w, s, t, id, s'.items[id], s'.calls[t]);
  }

  lemma RegisterThread(w: World, s: State, t: Tid)
    requires BrokerInv(w, s) && RegisterEnabled(w, s, t)
    ensures ThreadOk(w, RegisterStep(w, s, t), t)
  {
    assert ThreadOk(w, s, t);
  }

  /** Starting a call, or taking its result. */
  lemma CallKeeps(w: World, s: State, t: Tid, c: Call)
    requires BrokerInv(w, s) && t < |s.calls| && !HoldsItem(s.calls[t])
    requires c.Idle? || (c.Called? && Sensible(w, c.op))
    requires s.calls[t].Idle? || s.calls[t].Returned?
    ensures BrokerInv(w, Goto(s, t, c))
  {
    OutsideStep(w, s, Goto(s, t, c), t);
  }

  /** Claims made and released by anyone but the broker. */
  lemma ClaimsKeep(w: World, s: State, claims: multiset<Claim>)
    requires BrokerInv(w, s)
    requires forall c :: c in claims ==> c.obj in s.heap
    requires forall o :: claims[Claim(Broker, o)] == s.claims[Claim(Broker, o)]
    ensures BrokerInv(w, s.(claims := claims))
  {
    var s' := s.(claims := claims);
    forall u | 0 <= u < |s.calls| ensures ThreadOk(w, s', u) { assert ThreadOk(w, s, u); }
    forall j | 0 <= j < |s.items| ensures ItemOk(w, s', j) && LockOk(s', j) {
      assert ItemOk(w, s, j) && LockOk(s, j) && HolderCall(s', j) == HolderCall(s, j);
    }
    forall o ensures s'.claims[Claim(Broker, o)] == if Held(s', o) then 1 else 0 {
      assert s.claims[Claim(Broker, o)] == if Held(s, o) then 1 else 0;
    }
  }

  lemma ReclaimKeeps(w: World, s: State, o: Obj)
    requires BrokerInv(w, s) && o in s.heap && !Claimed(s, o)
    ensures BrokerInv(w, s.(heap := s.heap - {o}))
  {
    var s' := s.(heap := s.heap - {o});
    forall u | 0 <= u < |s.calls| ensures ThreadOk(w, s', u) {
      assert Rely(w, s, s', u);
      ThreadStable(w, s, s', u);
    }
    forall j | 0 <= j < |s.items| ensures ItemOk(w, s', j) && LockOk(s', j) {
      assert ItemOk(w, s, j) && LockOk(s, j) && HolderCall(s', j) == HolderCall(s, j);
      if Current(s, j).Some? { CurrentClaimed(w, s, j); }
    }
    forall p ensures s'.claims[Claim(Broker, p)] == if Held(s', p) then 1 else 0 {
      assert s.claims[Claim(Broker, p)] == if Held(s, p) then 1 else 0;
      if p == o { assert Claim(Broker, o) !in s.claims; }
    }
  }
}
